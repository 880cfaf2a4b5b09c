/** Readiness of the expected nodes: one snapshot of Machines and Nodes against the rendered roles. */
module NodeReadiness {
  import opened Wrappers
  import opened Counting

  type Name = nat                         // compared only for equality and, when sorting, order

  /** `labelled`: metadata.labels is a mapping. `excluded`: deleting, failed or malformed. A node
      reference counts only when it names a node. */
  datatype Machine = Machine(name: Name, labelled: bool, controlPlane: bool, deployment: Option<Name>,
                             excluded: bool, nodeRef: Option<Name>)

  datatype Node = Node(name: Option<Name>, deleting: bool, ready: bool)

  /** The control plane, or one MachineDeployment. */
  datatype Role = Role(deployment: Option<Name>, expected: nat)

  datatype Report = Report(active: nat, uncreated: nat, registered: nat, missing: nat, ready: nat, notReady: nat)

  predicate Matches(role: Role, m: Machine) {
    m.labelled && (if role.deployment.None? then m.controlPlane else !m.controlPlane && m.deployment == role.deployment)
  }

  function Matching(role: Role, machines: seq<Machine>): seq<Machine> {
    Keep(machines, (m: Machine) => Matches(role, m))
  }

  function Active(role: Role, machines: seq<Machine>): seq<Machine> {
    Keep(Matching(role, machines), (m: Machine) => !m.excluded)
  }

  /** Machines the role still lacks altogether. */
  function Uncreated(role: Role, machines: seq<Machine>): nat {
    if role.expected > |Matching(role, machines)| then role.expected - |Matching(role, machines)| else 0
  }

  predicate LiveAs(node: Node, name: Name) {
    node.name == Some(name) && !node.deleting
  }

  /** The lookup table keeps the last live node of each name. */
  function Find(nodes: seq<Node>, name: Name): Option<Node> {
    if nodes == [] then None
    else if LiveAs(nodes[|nodes|-1], name) then Some(nodes[|nodes|-1])
    else Find(nodes[..|nodes|-1], name)
  }

  predicate Serves(nodes: seq<Node>, name: Name) {
    Find(nodes, name).Some? && Find(nodes, name).value.ready
  }

  function Refs(machines: seq<Machine>): seq<Option<Name>> {
    Each(machines, (m: Machine) => m.nodeRef)
  }

  // ---- what the verdict means ----

  /** Node references of all roles' active Machines. */
  function AllRefs(roles: seq<Role>, machines: seq<Machine>): seq<Option<Name>> {
    if roles == [] then [] else AllRefs(roles[..|roles|-1], machines) + Refs(Active(roles[|roles|-1], machines))
  }

  predicate Counted(roles: seq<Role>, machines: seq<Machine>) {
    forall i :: 0 <= i < |roles| ==> |Active(roles[i], machines)| == roles[i].expected
  }

  /** All references are there, all different, and each names a live Ready Node. */
  predicate Good(refs: seq<Option<Name>>, nodes: seq<Node>) {
    Distinct(refs) && forall r :: r in refs ==> r.Some? && Serves(nodes, r.value)
  }

  predicate AllReady(roles: seq<Role>, machines: seq<Machine>, nodes: seq<Node>) {
    Counted(roles, machines) && Good(AllRefs(roles, machines), nodes)
  }

  // ---- sorting by Machine name ----

  function Insert(m: Machine, s: seq<Machine>): seq<Machine> {
    if s == [] || m.name <= s[0].name then [m] + s else [s[0]] + Insert(m, s[1..])
  }

  function Sorted(s: seq<Machine>): seq<Machine> {
    if s == [] then [] else Insert(s[0], Sorted(s[1..]))
  }

  lemma {:induction false} InsertPermutes(m: Machine, s: seq<Machine>)
    ensures multiset(Insert(m, s)) == multiset(s) + multiset{m}
  {
    if s != [] && !(m.name <= s[0].name) {
      InsertPermutes(m, s[1..]);
      assert s == [s[0]] + s[1..];
    }
  }

  lemma {:induction false} SortedPermutes(s: seq<Machine>)
    ensures multiset(Sorted(s)) == multiset(s)
  {
    if s != [] {
      SortedPermutes(s[1..]);
      InsertPermutes(s[0], Sorted(s[1..]));
      assert s == [s[0]] + s[1..];
    }
  }

  lemma SortedSize(s: seq<Machine>)
    ensures |Sorted(s)| == |s|
  {
    hide Sorted;
    SortedPermutes(s);
    assert |multiset(Sorted(s))| == |Sorted(s)| && |multiset(s)| == |s|;
  }

  // ---- the evaluation ----

  function Claims(refs: seq<Option<Name>>): set<Name> {
    set r | r in refs && r.Some? :: r.value
  }

  predicate Takes(base: seq<Option<Name>>, refs: seq<Option<Name>>, k: nat, nodes: seq<Node>)
    requires k < |refs|
  {
    refs[k].Some? && refs[k].value !in Claims(base + refs[..k]) && Serves(nodes, refs[k].value)
  }

  /** Live nodes that these references claim and none of `base` did. */
  function NewLive(base: seq<Option<Name>>, refs: seq<Option<Name>>, nodes: seq<Node>): set<Name> {
    set n | n in Claims(refs) && n !in Claims(base) && Find(nodes, n).Some?
  }

  function NewReady(base: seq<Option<Name>>, refs: seq<Option<Name>>, nodes: seq<Node>): set<Name> {
    set n | n in NewLive(base, refs, nodes) && Find(nodes, n).value.ready
  }

  lemma NewNext(base: seq<Option<Name>>, refs: seq<Option<Name>>, i: nat, nodes: seq<Node>)
    requires i < |refs|
    ensures var r := refs[i];
      var live, more := NewLive(base, refs[..i], nodes), NewLive(base, refs[..i+1], nodes);
      if r.Some? && r.value !in Claims(base + refs[..i]) && Find(nodes, r.value).Some?
      then more == live + {r.value} && r.value !in live
      else more == live
    ensures NewReady(base, refs[..i+1], nodes) ==
      NewReady(base, refs[..i], nodes) + (NewLive(base, refs[..i+1], nodes) - NewLive(base, refs[..i], nodes)) * ReadyNames(refs, nodes)
    ensures refs[i].Some? ==> (refs[i].value in ReadyNames(refs, nodes) <==> Serves(nodes, refs[i].value))
  {
    ClaimsConcat(refs[..i], refs[i]);
    assert refs[..i] + [refs[i]] == refs[..i+1];
    ClaimsJoin(base, refs[..i]);
    assert refs[i] in refs;
  }

  lemma CountNext(base: seq<Option<Name>>, refs: seq<Option<Name>>, i: nat, nodes: seq<Node>)
    requires i < |refs|
    ensures var counts := refs[i].Some? && refs[i].value !in Claims(base + refs[..i]) && Find(nodes, refs[i].value).Some?;
      && |NewLive(base, refs[..i+1], nodes)| == |NewLive(base, refs[..i], nodes)| + (if counts then 1 else 0)
      && |NewReady(base, refs[..i+1], nodes)| ==
         |NewReady(base, refs[..i], nodes)| + (if counts && Serves(nodes, refs[i].value) then 1 else 0)
  {
    NewNext(base, refs, i, nodes);
    var live, more := NewLive(base, refs[..i], nodes), NewLive(base, refs[..i+1], nodes);
    var ready, after := NewReady(base, refs[..i], nodes), NewReady(base, refs[..i+1], nodes);
    if more == live {
      assert after == ready;
    } else {
      assert more - live == {refs[i].value};
      if Serves(nodes, refs[i].value) {
        assert after == ready + {refs[i].value} && refs[i].value !in ready;
      } else {
        assert after == ready;
      }
    }
  }

  lemma CountNothing(base: seq<Option<Name>>, nodes: seq<Node>)
    ensures NewLive(base, [], nodes) == {} && NewReady(base, [], nodes) == {}
  {
  }

  /** Referenced names that are served. */
  function ReadyNames(refs: seq<Option<Name>>, nodes: seq<Node>): set<Name> {
    set n | n in Claims(refs) && Serves(nodes, n)
  }

  lemma ClaimsJoin(s: seq<Option<Name>>, t: seq<Option<Name>>)
    ensures Claims(s + t) == Claims(s) + Claims(t)
  {
    assert forall x :: x in s + t <==> x in s || x in t;
  }

  lemma ClaimsPermute(s: seq<Option<Name>>, t: seq<Option<Name>>)
    requires multiset(s) == multiset(t)
    ensures Claims(s) == Claims(t)
  {
    assert forall x :: x in s <==> x in multiset(s);
    assert forall x :: x in t <==> x in multiset(t);
  }

  /** One role: nodes already claimed by earlier Machines do not count again. */
  method EvaluateRole(role: Role, machines: seq<Machine>, nodes: seq<Node>, ghost base: seq<Option<Name>>, claimed: set<Name>)
    returns (fine: bool, report: Report, now: set<Name>, ghost taken: seq<Option<Name>>)
    requires claimed == Claims(base)
    ensures multiset(taken) == multiset(Refs(Active(role, machines))) && |taken| == |Active(role, machines)|
    ensures now == Claims(base + taken)
    ensures report.active == |taken| && report.registered + report.missing == report.active
    ensures report.registered == |NewLive(base, taken, nodes)| && report.ready == |NewReady(base, taken, nodes)|
    ensures report.ready + report.notReady == report.registered
    ensures report.uncreated == Uncreated(role, machines)
    ensures fine <==> |taken| == role.expected && forall k :: 0 <= k < |taken| ==> Takes(base, taken, k, nodes)
  {
    hide Matching, Active, Claims, Sorted, Find, NewLive, NewReady;
    var matching := Matching(role, machines);
    var active := Active(role, machines);
    var sorted := Sorted(active);
    SortedPermutes(active);
    SortedSize(active);
    EachPermutes(sorted, active, (m: Machine) => m.nodeRef);
    taken := Refs(sorted);
    EachAt(sorted, (m: Machine) => m.nodeRef);
    now := claimed;
    var registered, missing, ready, notReady := 0, 0, 0, 0;
    var unique := true;
    assert base + taken[..0] == base && taken[..0] == [];
    CountNothing(base, nodes);
    for i := 0 to |sorted|
      invariant now == Claims(base + taken[..i])
      invariant registered + missing == i && ready + notReady == registered
      invariant ready == i <==> forall k :: 0 <= k < i ==> Takes(base, taken, k, nodes)
      invariant registered == i ==> unique
      invariant registered == |NewLive(base, taken[..i], nodes)| && ready == |NewReady(base, taken[..i], nodes)|
    {
      var r := sorted[i].nodeRef;
      assert r == taken[i];
      ghost var takes := Takes(base, taken, i, nodes);
      assert takes <==> r.Some? && r.value !in now && Serves(nodes, r.value);
      ClaimNext(base, taken, i);
      if r.None? {
        missing := missing + 1;
      } else if r.value in now {
        missing, unique := missing + 1, false;
      } else {
        now := now + {r.value};
        var node := Find(nodes, r.value);
        if node.None? {
          missing := missing + 1;
        } else {
          registered := registered + 1;
          if node.value.ready { ready := ready + 1; } else { notReady := notReady + 1; }
        }
      }
      TakesNext(base, taken, i, nodes);
      CountNext(base, taken, i, nodes);
    }
    assert taken[..|sorted|] == taken;
    var uncreated := if role.expected > |matching| then role.expected - |matching| else 0;
    report := Report(|active|, uncreated, registered, missing, ready, notReady);
    fine := |active| == role.expected && registered == role.expected && ready == role.expected && unique;
  }

  lemma TakesNext(base: seq<Option<Name>>, refs: seq<Option<Name>>, i: nat, nodes: seq<Node>)
    requires i < |refs|
    ensures (forall k :: 0 <= k < i + 1 ==> Takes(base, refs, k, nodes)) <==>
      (forall k :: 0 <= k < i ==> Takes(base, refs, k, nodes)) && Takes(base, refs, i, nodes)
  {
  }

  lemma ClaimNext(base: seq<Option<Name>>, refs: seq<Option<Name>>, i: nat)
    requires i < |refs|
    ensures Claims(base + refs[..i+1]) == Claims(base + refs[..i]) + (if refs[i].Some? then {refs[i].value} else {})
  {
    assert base + refs[..i+1] == base + refs[..i] + [refs[i]];
    ClaimsConcat(base + refs[..i], refs[i]);
  }

  lemma ClaimsConcat(s: seq<Option<Name>>, r: Option<Name>)
    ensures Claims(s + [r]) == Claims(s) + (if r.Some? then {r.value} else {})
  {
    assert forall x :: x in s + [r] <==> x in s || x == r;
  }

  /** Claiming one after the other is the same as all references being good. */
  lemma GoodInTurn(base: seq<Option<Name>>, refs: seq<Option<Name>>, nodes: seq<Node>)
    ensures Good(base + refs, nodes) <==> Good(base, nodes) && forall k :: 0 <= k < |refs| ==> Takes(base, refs, k, nodes)
  {
    var all := base + refs;
    assert forall i :: 0 <= i < |base| ==> all[i] == base[i];
    assert forall k :: 0 <= k < |refs| ==> all[|base|+k] == refs[k];
    if Good(all, nodes) {
      forall r | r in base ensures r in all {}
      forall k | 0 <= k < |refs| ensures Takes(base, refs, k, nodes) {
        assert all[|base|+k] in all;
        NotBefore(base, refs, k);
      }
    }
    if Good(base, nodes) && forall k :: 0 <= k < |refs| ==> Takes(base, refs, k, nodes) {
      forall i, j | 0 <= i < j < |all| ensures all[i] != all[j] {
        if j >= |base| { TakenIsNew(base, refs, j - |base|, i, nodes); }
      }
      forall r | r in all ensures r.Some? && Serves(nodes, r.value) {
        if r !in base { var k :| 0 <= k < |refs| && refs[k] == r; assert Takes(base, refs, k, nodes); }
      }
    }
  }

  lemma NotBefore(base: seq<Option<Name>>, refs: seq<Option<Name>>, k: nat)
    requires k < |refs| && Distinct(base + refs) && refs[k].Some?
    ensures refs[k].value !in Claims(base + refs[..k])
  {
    var all, early := base + refs, base + refs[..k];
    assert forall i :: 0 <= i < |early| ==> early[i] == all[i];
    assert all[|base|+k] == refs[k];
  }

  lemma TakenIsNew(base: seq<Option<Name>>, refs: seq<Option<Name>>, k: nat, i: nat, nodes: seq<Node>)
    requires k < |refs| && i < |base| + k && Takes(base, refs, k, nodes)
    ensures (base + refs)[i] != (base + refs)[|base|+k]
  {
    var early := base + refs[..k];
    assert early[i] == (base + refs)[i] && early[i] in early;
  }

  /** `expected_nodes_diagnostics`. */
  method ExpectedNodes(roles: seq<Role>, machines: seq<Machine>, nodes: seq<Node>)
    returns (allReady: bool, reports: seq<Report>)
    ensures allReady <==> AllReady(roles, machines, nodes)
    ensures |reports| == |roles|
    ensures forall i :: 0 <= i < |roles| ==>
      && reports[i].active == |Active(roles[i], machines)| && reports[i].uncreated == Uncreated(roles[i], machines)
      && reports[i].registered == |NewLive(AllRefs(roles[..i], machines), Refs(Active(roles[i], machines)), nodes)|
      && reports[i].ready == |NewReady(AllRefs(roles[..i], machines), Refs(Active(roles[i], machines)), nodes)|
      && reports[i].registered + reports[i].missing == reports[i].active
      && reports[i].ready + reports[i].notReady == reports[i].registered
  {
    hide Active, Matching, NewLive, NewReady, Refs;
    var claimed: set<Name> := {};
    ghost var processed: seq<Option<Name>> := [];
    allReady, reports := true, [];
    for i := 0 to |roles|
      invariant claimed == Claims(processed)
      invariant multiset(processed) == multiset(AllRefs(roles[..i], machines))
      invariant allReady <==> Counted(roles[..i], machines) && Good(processed, nodes)
      invariant |reports| == i
      invariant forall j :: 0 <= j < i ==>
        && reports[j].active == |Active(roles[j], machines)| && reports[j].uncreated == Uncreated(roles[j], machines)
        && reports[j].registered == |NewLive(AllRefs(roles[..j], machines), Refs(Active(roles[j], machines)), nodes)|
        && reports[j].ready == |NewReady(AllRefs(roles[..j], machines), Refs(Active(roles[j], machines)), nodes)|
        && reports[j].registered + reports[j].missing == reports[j].active
        && reports[j].ready + reports[j].notReady == reports[j].registered
    {
      var fine, report, now; ghost var taken;
      fine, report, now, taken := EvaluateRole(roles[i], machines, nodes, processed, claimed);
      GoodInTurn(processed, taken, nodes);
      NewPermutes(processed, AllRefs(roles[..i], machines), taken, Refs(Active(roles[i], machines)), nodes);
      CountedNext(roles, machines, i);
      assert roles[..i+1][..i] == roles[..i];
      claimed, processed := now, processed + taken;
      reports := reports + [report];
      allReady := allReady && fine;
    }
    assert roles[..|roles|] == roles;
    GoodPermutes(processed, AllRefs(roles, machines), nodes);
  }

  lemma NewPermutes(a: seq<Option<Name>>, b: seq<Option<Name>>, s: seq<Option<Name>>, t: seq<Option<Name>>, nodes: seq<Node>)
    requires multiset(a) == multiset(b) && multiset(s) == multiset(t)
    ensures NewLive(a, s, nodes) == NewLive(b, t, nodes) && NewReady(a, s, nodes) == NewReady(b, t, nodes)
  {
    ClaimsPermute(a, b);
    ClaimsPermute(s, t);
  }

  lemma CountedNext(roles: seq<Role>, machines: seq<Machine>, i: nat)
    requires i < |roles|
    ensures Counted(roles[..i+1], machines) <==>
      Counted(roles[..i], machines) && |Active(roles[i], machines)| == roles[i].expected
  {
    assert forall j :: 0 <= j < i ==> roles[..i+1][j] == roles[..i][j];
    assert roles[..i+1][i] == roles[i];
    if Counted(roles[..i+1], machines) {
      forall j | 0 <= j < i ensures |Active(roles[..i][j], machines)| == roles[..i][j].expected {
        assert roles[..i+1][j] == roles[..i][j];
      }
    }
  }

  lemma GoodPermutes(s: seq<Option<Name>>, t: seq<Option<Name>>, nodes: seq<Node>)
    requires multiset(s) == multiset(t)
    ensures Good(s, nodes) <==> Good(t, nodes)
  {
    assert forall x :: x in s <==> x in multiset(s);
    assert forall x :: x in t <==> x in multiset(t);
    if Distinct(s) { DistinctPermutes(s, t); }
    if Distinct(t) { DistinctPermutes(t, s); }
  }

  // ---- order of the lists ----

  lemma ActivePermutes(role: Role, s: seq<Machine>, t: seq<Machine>)
    requires multiset(s) == multiset(t)
    ensures |Active(role, s)| == |Active(role, t)|
    ensures multiset(Refs(Active(role, s))) == multiset(Refs(Active(role, t)))
  {
    KeepPermutes(s, t, (m: Machine) => Matches(role, m));
    KeepPermutes(Matching(role, s), Matching(role, t), (m: Machine) => !m.excluded);
    EachPermutes(Active(role, s), Active(role, t), (m: Machine) => m.nodeRef);
  }

  lemma {:induction false} AllRefsPermute(roles: seq<Role>, s: seq<Machine>, t: seq<Machine>)
    requires multiset(s) == multiset(t)
    ensures multiset(AllRefs(roles, s)) == multiset(AllRefs(roles, t))
  {
    if roles != [] {
      AllRefsPermute(roles[..|roles|-1], s, t);
      ActivePermutes(roles[|roles|-1], s, t);
    }
  }

  // ---- which Machines count ----

  /** The active Machines of a role: those listed with a label mapping, not excluded, and for the control
      plane labelled so, for a MachineDeployment of that deployment and no control plane. */
  lemma ActiveExactly(role: Role, machines: seq<Machine>, m: Machine)
    ensures m in Active(role, machines) <==>
      && m in machines && m.labelled && !m.excluded
      && (role.deployment.None? ==> m.controlPlane)
      && (role.deployment.Some? ==> !m.controlPlane && m.deployment == role.deployment)
  {
    KeepIn(machines, (m: Machine) => Matches(role, m));
    KeepIn(Matching(role, machines), (m: Machine) => !m.excluded);
  }

  function Eligible(machines: seq<Machine>): seq<Machine> {
    Keep(machines, (m: Machine) => m.labelled && !m.excluded)
  }

  lemma ActiveIsEligible(role: Role, machines: seq<Machine>)
    ensures Active(role, machines) == Active(role, Eligible(machines))
  {
    var counts := (m: Machine) => Matches(role, m) && !m.excluded;
    BothTests(role, machines);
    BothTests(role, Eligible(machines));
    KeepTwice(machines, (m: Machine) => m.labelled && !m.excluded, counts);
  }

  lemma {:induction false} BothTests(role: Role, machines: seq<Machine>)
    ensures Active(role, machines) == Keep(machines, (m: Machine) => Matches(role, m) && !m.excluded)
  {
    if machines != [] {
      BothTests(role, machines[1..]);
      var rest := Matching(role, machines[1..]);
      assert ([machines[0]] + rest)[1..] == rest;
      assert Matching(role, machines) == if Matches(role, machines[0]) then [machines[0]] + rest else rest;
      var live := (m: Machine) => !m.excluded;
      assert Keep([machines[0]] + rest, live) == (if !machines[0].excluded then [machines[0]] else []) + Keep(rest, live);
    }
  }

  lemma {:induction false} RefsOfEligible(roles: seq<Role>, machines: seq<Machine>)
    ensures AllRefs(roles, machines) == AllRefs(roles, Eligible(machines))
  {
    if roles != [] {
      RefsOfEligible(roles[..|roles|-1], machines);
      ActiveIsEligible(roles[|roles|-1], machines);
    }
  }

  /** Deleting, failed, malformed or unlabelled Machines never matter to the verdict. */
  lemma ExcludedIrrelevant(roles: seq<Role>, machines: seq<Machine>, nodes: seq<Node>)
    ensures AllReady(roles, machines, nodes) <==> AllReady(roles, Eligible(machines), nodes)
  {
    hide Active, Good, AllRefs, Eligible;
    forall i | 0 <= i < |roles| ensures Active(roles[i], machines) == Active(roles[i], Eligible(machines)) {
      ActiveIsEligible(roles[i], machines);
    }
    RefsOfEligible(roles, machines);
  }

  /** The order in which Machines are listed never matters. */
  lemma MachineOrderIrrelevant(roles: seq<Role>, s: seq<Machine>, t: seq<Machine>, nodes: seq<Node>)
    requires multiset(s) == multiset(t)
    ensures AllReady(roles, s, nodes) <==> AllReady(roles, t, nodes)
  {
    forall i | 0 <= i < |roles| ensures |Active(roles[i], s)| == |Active(roles[i], t)| { ActivePermutes(roles[i], s, t); }
    AllRefsPermute(roles, s, t);
    GoodPermutes(AllRefs(roles, s), AllRefs(roles, t), nodes);
  }

  /** Live nodes that carry the same name also have the same readiness. */
  predicate Agree(nodes: seq<Node>, name: Name) {
    forall a, b :: a in nodes && b in nodes && LiveAs(a, name) && LiveAs(b, name) ==> a.ready == b.ready
  }

  lemma {:induction false} FindIsLive(nodes: seq<Node>, name: Name)
    ensures Find(nodes, name).Some? ==> Find(nodes, name).value in nodes && LiveAs(Find(nodes, name).value, name)
    ensures Find(nodes, name).None? ==> forall x :: x in nodes ==> !LiveAs(x, name)
  {
    if nodes != [] {
      FindIsLive(nodes[..|nodes|-1], name);
      assert nodes == nodes[..|nodes|-1] + [nodes[|nodes|-1]];
    }
  }

  lemma MovedLast(nodes: seq<Node>, x: Node) returns (t: seq<Node>)
    requires x in nodes
    ensures multiset(t) == multiset(nodes) && t != [] && t[|t|-1] == x
  {
    var i :| 0 <= i < |nodes| && nodes[i] == x;
    assert nodes == nodes[..i] + [x] + nodes[i+1..];
    t := nodes[..i] + nodes[i+1..] + [x];
  }

  /** The order in which Nodes are listed is irrelevant for a name exactly when all live nodes of that
      name agree; otherwise the last one listed decides. */
  lemma NodeOrderExactly(nodes: seq<Node>, name: Name)
    ensures (forall t :: multiset(t) == multiset(nodes) ==> Serves(t, name) == Serves(nodes, name)) <==> Agree(nodes, name)
  {
    if Agree(nodes, name) {
      forall t | multiset(t) == multiset(nodes) ensures Serves(t, name) == Serves(nodes, name) {
        assert forall x :: x in nodes <==> x in multiset(nodes);
        assert forall x :: x in t <==> x in multiset(t);
        FindIsLive(t, name);
        FindIsLive(nodes, name);
      }
    } else {
      var a, b :| a in nodes && b in nodes && LiveAs(a, name) && LiveAs(b, name) && a.ready != b.ready;
      var s := MovedLast(nodes, a);
      var t := MovedLast(nodes, b);
      assert Serves(s, name) != Serves(t, name);
    }
  }

  /** With one live node per name, or agreeing ones, the whole verdict ignores the order of Nodes. */
  lemma NodeOrderIrrelevant(roles: seq<Role>, machines: seq<Machine>, nodes: seq<Node>, t: seq<Node>)
    requires multiset(t) == multiset(nodes) && forall name :: Agree(nodes, name)
    ensures AllReady(roles, machines, nodes) <==> AllReady(roles, machines, t)
  {
    forall name ensures Serves(t, name) == Serves(nodes, name) { NodeOrderExactly(nodes, name); }
  }
}
