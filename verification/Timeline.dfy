/** Replacement timeline: the sampling loop that keeps only changed snapshots, and the verdict on what
    it kept. */
module Timeline {
  import opened Wrappers

  type Uid = nat

  datatype Role = ControlPlane | Worker
  datatype Node = Node(name: string, uid: Uid, role: Role, ready: bool, image: string)
  datatype Machine = Machine(name: string, uid: Uid, nodeRef: Option<string>, phase: Option<string>)
  datatype Observation = Observation(at: nat, nodes: seq<Node>, machines: seq<Machine>)

  /** What the run is about: old and new version, short identity of the new image. */
  datatype Plan = Plan(oldVersion: string, newVersion: string, identity: string)

  datatype Complaint = EmptyTimeline | BadBaseline | NoControlPlane | DisappearedEarly | BadFinal
  datatype Verdict = Proof(oldUids: set<Uid>, newUids: set<Uid>) | Refused(why: Complaint)

  /** Python's `sub in s`. */
  predicate Contains(s: string, sub: string) {
    sub <= s || (s != [] && Contains(s[1..], sub))
  }

  /** Two snapshots with equal signatures differ at most in their time. */
  predicate SameSignature(a: Observation, b: Observation) {
    a.nodes == b.nodes && a.machines == b.machines
  }

  // ---- verify_timeline ----

  /** Old nodes by UID; a later entry of the same UID replaces an earlier one. */
  function OldNodes(nodes: seq<Node>, version: string): map<Uid, Node> {
    if nodes == [] then map[]
    else
      var last := nodes[|nodes|-1];
      var before := OldNodes(nodes[..|nodes|-1], version);
      if Contains(last.image, version) then before[last.uid := last] else before
  }

  predicate Baseline(former: map<Uid, Node>) {
    && |former| == 2
    && (set u | u in former :: former[u].role) == {ControlPlane, Worker}
    && forall u :: u in former ==> former[u].ready
  }

  predicate HasUid(nodes: seq<Node>, uid: Uid) {
    exists n :: n in nodes && n.uid == uid
  }

  predicate Replaced(nodes: seq<Node>, role: Role, plan: Plan) {
    exists n :: n in nodes && n.ready && n.role == role && Contains(n.image, plan.newVersion)
  }

  predicate ControlPlaneReady(nodes: seq<Node>) {
    exists n :: n in nodes && n.ready && n.role == ControlPlane
  }

  predicate PresentOrReplaced(nodes: seq<Node>, former: map<Uid, Node>, plan: Plan) {
    forall u :: u in former ==> HasUid(nodes, u) || Replaced(nodes, former[u].role, plan)
  }

  function Check(nodes: seq<Node>, former: map<Uid, Node>, plan: Plan): Option<Complaint> {
    if !ControlPlaneReady(nodes) then Some(NoControlPlane)
    else if !PresentOrReplaced(nodes, former, plan) then Some(DisappearedEarly)
    else None
  }

  /** First complaint in sample order. */
  function CheckAll(observations: seq<Observation>, former: map<Uid, Node>, plan: Plan): Option<Complaint> {
    if observations == [] then None
    else
      var earlier := CheckAll(observations[..|observations|-1], former, plan);
      if earlier.Some? then earlier else Check(observations[|observations|-1].nodes, former, plan)
  }

  predicate FinalState(nodes: seq<Node>, former: map<Uid, Node>, plan: Plan) {
    && |nodes| == 2 && (set n | n in nodes :: n.role) == {ControlPlane, Worker}
    && forall n :: n in nodes ==>
         n.ready && Contains(n.image, plan.newVersion) && Contains(n.name, plan.identity) && n.uid !in former
  }

  function Verify(observations: seq<Observation>, plan: Plan): Verdict {
    if observations == [] then Refused(EmptyTimeline)
    else
      var former := OldNodes(observations[0].nodes, plan.oldVersion);
      var final := observations[|observations|-1].nodes;
      if !Baseline(former) then Refused(BadBaseline)
      else if CheckAll(observations, former, plan).Some? then Refused(CheckAll(observations, former, plan).value)
      else if !FinalState(final, former, plan) then Refused(BadFinal)
      else Proof(former.Keys, set n | n in final :: n.uid)
  }

  // ---- compression ----

  /** Only samples whose signature differs from the last one kept. */
  function Compress(samples: seq<Observation>): (kept: seq<Observation>)
    ensures samples != [] ==> kept != []
  {
    if samples == [] then []
    else
      var before := Compress(samples[..|samples|-1]);
      var last := samples[|samples|-1];
      if before != [] && SameSignature(before[|before|-1], last) then before else before + [last]
  }

  lemma {:induction false} CompressEnds(samples: seq<Observation>)
    requires samples != []
    ensures var kept := Compress(samples);
      && kept[0] == samples[0]
      && SameSignature(kept[|kept|-1], samples[|samples|-1])
  {
    if |samples| > 1 { CompressEnds(samples[..|samples|-1]); }
  }

  /** Nothing that was sampled is missing from what was kept. */
  lemma {:induction false} CompressCovers(samples: seq<Observation>, i: nat)
    requires i < |samples|
    ensures exists k :: 0 <= k < |Compress(samples)| && SameSignature(Compress(samples)[k], samples[i])
  {
    var prefix := samples[..|samples|-1];
    CompressEnds(samples);
    if i < |prefix| {
      CompressCovers(prefix, i);
      var k :| 0 <= k < |Compress(prefix)| && SameSignature(Compress(prefix)[k], prefix[i]);
      assert Compress(samples)[k] == Compress(prefix)[k];
    } else {
      assert SameSignature(Compress(samples)[|Compress(samples)|-1], samples[i]);
    }
  }

  lemma {:induction false} CheckCompressed(samples: seq<Observation>, former: map<Uid, Node>, plan: Plan)
    ensures CheckAll(Compress(samples), former, plan) == CheckAll(samples, former, plan)
  {
    hide Check;
    if samples != [] {
      var prefix := samples[..|samples|-1];
      CheckCompressed(prefix, former, plan);
      var before, last := Compress(prefix), samples[|samples|-1];
      if before != [] && SameSignature(before[|before|-1], last) {
        assert CheckAll(before, former, plan) ==
          (if CheckAll(before[..|before|-1], former, plan).Some? then CheckAll(before[..|before|-1], former, plan)
           else Check(last.nodes, former, plan));
      } else {
        assert (before + [last])[..|before|] == before;
      }
    }
  }

  /** The verdict on the kept samples is the verdict on every sample taken, complaint included. */
  lemma CompressionFaithful(samples: seq<Observation>, plan: Plan)
    ensures Verify(Compress(samples), plan) == Verify(samples, plan)
  {
    hide CheckAll, OldNodes, Baseline, FinalState;
    if samples != [] {
      CompressEnds(samples);
      CheckCompressed(samples, OldNodes(samples[0].nodes, plan.oldVersion), plan);
    }
  }

  // ---- what acceptance means ----

  lemma {:induction false} CheckedEach(observations: seq<Observation>, former: map<Uid, Node>, plan: Plan, i: nat)
    requires i < |observations| && CheckAll(observations, former, plan).None?
    ensures Check(observations[i].nodes, former, plan).None?
  {
    if i < |observations| - 1 { CheckedEach(observations[..|observations|-1], former, plan, i); }
  }

  lemma {:induction false} OldAreListed(nodes: seq<Node>, version: string)
    ensures forall u :: u in OldNodes(nodes, version) ==>
      OldNodes(nodes, version)[u] in nodes && OldNodes(nodes, version)[u].uid == u
      && Contains(OldNodes(nodes, version)[u].image, version)
    ensures forall n :: n in nodes && Contains(n.image, version) ==> n.uid in OldNodes(nodes, version)
  {
    if nodes != [] {
      OldAreListed(nodes[..|nodes|-1], version);
      assert nodes == nodes[..|nodes|-1] + [nodes[|nodes|-1]];
    }
  }

  lemma TwoMembers(s: set<Uid>, a: Uid, b: Uid)
    requires |s| == 2 && {a, b} <= s && a != b
    ensures s == {a, b}
  {
    assert s == {a, b} + (s - {a, b});
  }

  /** The old control plane and the old worker. */
  lemma OneOfEach(former: map<Uid, Node>) returns (control: Uid, worker: Uid)
    requires Baseline(former)
    ensures control != worker && former.Keys == {control, worker}
    ensures former[control].role == ControlPlane && former[worker].role == Worker
  {
    var roles := set u | u in former :: former[u].role;
    assert ControlPlane in roles && Worker in roles;
    control :| control in former && former[control].role == ControlPlane;
    worker :| worker in former && former[worker].role == Worker;
    assert |former.Keys| == 2;
    TwoMembers(former.Keys, control, worker);
  }

  /** The old nodes of the verdict are those of the first sample: every node there that runs the old
      version, each Ready, one control plane and one worker. */
  ghost predicate OriginalsNamed(nodes: seq<Node>, former: map<Uid, Node>, version: string) {
    && (forall u :: u in former ==>
          former[u] in nodes && former[u].uid == u && former[u].ready && Contains(former[u].image, version))
    && (forall n :: n in nodes && Contains(n.image, version) ==> n.uid in former)
    && (exists control, worker :: control != worker && former.Keys == {control, worker}
          && former[control].role == ControlPlane && former[worker].role == Worker)
  }

  /** In every sample some control plane is Ready, and where an old node is missing its role is already
      served by a Ready new node. */
  ghost predicate Served(samples: seq<Observation>, former: map<Uid, Node>, plan: Plan) {
    && (forall i :: 0 <= i < |samples| ==> ControlPlaneReady(samples[i].nodes))
    && (forall i, u :: 0 <= i < |samples| && u in former && !HasUid(samples[i].nodes, u) ==>
          Replaced(samples[i].nodes, former[u].role, plan))
  }

  /** What a proof vouches for, about every sample. */
  ghost predicate NeverUnserved(samples: seq<Observation>, plan: Plan, verdict: Verdict)
    requires samples != [] && verdict.Proof?
  {
    var former := OldNodes(samples[0].nodes, plan.oldVersion);
    var final := samples[|samples|-1].nodes;
    && verdict.oldUids == former.Keys && OriginalsNamed(samples[0].nodes, former, plan.oldVersion)
    && Served(samples, former, plan)
    && verdict.newUids == (set n | n in final :: n.uid) && verdict.newUids !! verdict.oldUids
    && forall n :: n in final ==> n.ready && Contains(n.image, plan.newVersion)
  }

  lemma AcceptedMeans(samples: seq<Observation>, plan: Plan)
    requires samples != [] && Verify(samples, plan).Proof?
    ensures NeverUnserved(samples, plan, Verify(samples, plan))
  {
    hide CheckAll, Contains, OldNodes, ControlPlaneReady, Replaced, HasUid;
    var former := OldNodes(samples[0].nodes, plan.oldVersion);
    OldAreListed(samples[0].nodes, plan.oldVersion);
    var control, worker := OneOfEach(former);
    forall i | 0 <= i < |samples|
      ensures ControlPlaneReady(samples[i].nodes) && PresentOrReplaced(samples[i].nodes, former, plan)
    {
      CheckedEach(samples, former, plan, i);
    }
  }

  // ---- exactly what is accepted ----

  /** `sub` stands in s somewhere. */
  lemma {:induction false} ContainsMeans(s: string, sub: string)
    ensures Contains(s, sub) <==> exists i :: 0 <= i <= |s| && sub <= s[i..]
  {
    assert s[0..] == s;
    if s != [] {
      ContainsMeans(s[1..], sub);
      if Contains(s[1..], sub) {
        var i :| 0 <= i <= |s[1..]| && sub <= s[1..][i..];
        assert s[1..][i..] == s[i+1..];
      }
      if i :| 0 <= i <= |s| && sub <= s[i..] {
        if i > 0 { assert s[1..][i-1..] == s[i..]; }
      }
    }
  }

  /** The last node of this UID that runs the version. */
  predicate LastOld(nodes: seq<Node>, version: string, i: nat)
    requires i < |nodes|
  {
    && Contains(nodes[i].image, version)
    && forall j :: i < j < |nodes| && nodes[j].uid == nodes[i].uid ==> !Contains(nodes[j].image, version)
  }

  lemma {:induction false} OldNodesExactly(nodes: seq<Node>, version: string, u: Uid, n: Node)
    ensures u in OldNodes(nodes, version) && OldNodes(nodes, version)[u] == n <==>
      exists i :: 0 <= i < |nodes| && nodes[i] == n && n.uid == u && LastOld(nodes, version, i)
  {
    hide Contains;
    if nodes != [] {
      var front, k := nodes[..|nodes|-1], |nodes| - 1;
      OldNodesExactly(front, version, u, n);
      assert nodes == front + [nodes[k]];
      if Contains(nodes[k].image, version) && nodes[k].uid == u {
        assert forall i :: 0 <= i < k && nodes[i].uid == u ==> !LastOld(nodes, version, i);
        assert LastOld(nodes, version, k);
      } else {
        assert forall i :: 0 <= i < k && nodes[i].uid == u ==> (LastOld(front, version, i) <==> LastOld(nodes, version, i));
        assert nodes[k].uid == u ==> !LastOld(nodes, version, k);
      }
    }
  }

  /** Two Ready old nodes, one of each role. */
  ghost predicate GoodStart(former: map<Uid, Node>) {
    exists control, worker :: control != worker && former.Keys == {control, worker}
      && former[control].role == ControlPlane && former[control].ready
      && former[worker].role == Worker && former[worker].ready
  }

  /** A Ready control plane, and for each old node the node itself or a Ready new node of its role. */
  ghost predicate GoodAt(nodes: seq<Node>, former: map<Uid, Node>, plan: Plan) {
    && (exists n :: n in nodes && n.ready && n.role == ControlPlane)
    && forall u :: u in former ==>
         || (exists n :: n in nodes && n.uid == u)
         || (exists n :: n in nodes && n.ready && n.role == former[u].role && Contains(n.image, plan.newVersion))
  }

  /** Two other nodes, one of each role, Ready, on the new version and named after the new image. */
  ghost predicate GoodEnd(nodes: seq<Node>, former: map<Uid, Node>, plan: Plan) {
    && |nodes| == 2
    && nodes[0].role != nodes[1].role
    && forall i :: 0 <= i < 2 ==>
         && nodes[i].ready && nodes[i].uid !in former
         && Contains(nodes[i].image, plan.newVersion) && Contains(nodes[i].name, plan.identity)
  }

  ghost predicate Good(samples: seq<Observation>, plan: Plan)
    requires samples != []
  {
    var former := OldNodes(samples[0].nodes, plan.oldVersion);
    && GoodStart(former)
    && (forall i :: 0 <= i < |samples| ==> GoodAt(samples[i].nodes, former, plan))
    && GoodEnd(samples[|samples|-1].nodes, former, plan)
  }

  lemma StartMeans(former: map<Uid, Node>)
    ensures Baseline(former) <==> GoodStart(former)
  {
    if Baseline(former) { var control, worker := OneOfEach(former); }
    if GoodStart(former) {
      var control, worker :| control != worker && former.Keys == {control, worker}
        && former[control].role == ControlPlane && former[control].ready
        && former[worker].role == Worker && former[worker].ready;
      var roles := set u | u in former :: former[u].role;
      assert |former| == |former.Keys| == 2;
      assert former[control].role in roles && former[worker].role in roles;
      assert roles == {ControlPlane, Worker};
    }
  }

  lemma CheckMeans(nodes: seq<Node>, former: map<Uid, Node>, plan: Plan)
    ensures Check(nodes, former, plan).None? <==> GoodAt(nodes, former, plan)
  {
    hide Contains;
  }

  lemma EndMeans(nodes: seq<Node>, former: map<Uid, Node>, plan: Plan)
    ensures FinalState(nodes, former, plan) <==> GoodEnd(nodes, former, plan)
  {
    hide Contains;
    if |nodes| == 2 {
      var roles := set n | n in nodes :: n.role;
      assert nodes[0] in nodes && nodes[1] in nodes;
      assert roles == {nodes[0].role, nodes[1].role};
    }
  }

  lemma {:induction false} CheckedAll(observations: seq<Observation>, former: map<Uid, Node>, plan: Plan)
    ensures CheckAll(observations, former, plan).None? <==>
      forall i :: 0 <= i < |observations| ==> GoodAt(observations[i].nodes, former, plan)
  {
    hide Check, GoodAt;
    if observations != [] {
      CheckedAll(observations[..|observations|-1], former, plan);
      CheckMeans(observations[|observations|-1].nodes, former, plan);
    }
  }

  /** The verdict is a proof exactly on good timelines. */
  lemma VerifyExactly(samples: seq<Observation>, plan: Plan)
    ensures Verify(samples, plan).Proof? <==> samples != [] && Good(samples, plan)
  {
    hide OldNodes, Baseline, CheckAll, FinalState, GoodStart, GoodAt, GoodEnd;
    if samples != [] {
      var former := OldNodes(samples[0].nodes, plan.oldVersion);
      StartMeans(former);
      CheckedAll(samples, former, plan);
      EndMeans(samples[|samples|-1].nodes, former, plan);
    }
  }

  /** What each refusal says. */
  lemma RefusalsMean(samples: seq<Observation>, plan: Plan)
    ensures Verify(samples, plan) == Refused(EmptyTimeline) <==> samples == []
    ensures samples != [] ==> var former := OldNodes(samples[0].nodes, plan.oldVersion);
      && (Verify(samples, plan) == Refused(BadBaseline) <==> !GoodStart(former))
      && (Verify(samples, plan) == Refused(BadFinal) ==> !GoodEnd(samples[|samples|-1].nodes, former, plan))
      && (Verify(samples, plan) == Refused(NoControlPlane) ==>
            exists i :: 0 <= i < |samples| && forall n :: n in samples[i].nodes ==> !(n.ready && n.role == ControlPlane))
      && (Verify(samples, plan) == Refused(DisappearedEarly) ==>
            exists i :: 0 <= i < |samples| && ControlPlaneReady(samples[i].nodes) && !GoodAt(samples[i].nodes, former, plan))
  {
    hide Contains, OldNodes, Baseline, CheckAll, FinalState, GoodStart, GoodAt, GoodEnd, Check;
    if samples != [] {
      var former := OldNodes(samples[0].nodes, plan.oldVersion);
      StartMeans(former);
      EndMeans(samples[|samples|-1].nodes, former, plan);
      if CheckAll(samples, former, plan).Some? {
        var i := FirstComplaint(samples, former, plan);
        ComplaintMeans(samples[i].nodes, former, plan);
      }
    }
  }

  lemma {:induction false} FirstComplaint(observations: seq<Observation>, former: map<Uid, Node>, plan: Plan) returns (i: nat)
    requires CheckAll(observations, former, plan).Some?
    ensures i < |observations| && Check(observations[i].nodes, former, plan) == CheckAll(observations, former, plan)
  {
    hide Check;
    var front := observations[..|observations|-1];
    if CheckAll(front, former, plan).Some? { i := FirstComplaint(front, former, plan); } else { i := |observations| - 1; }
  }

  lemma ComplaintMeans(nodes: seq<Node>, former: map<Uid, Node>, plan: Plan)
    requires Check(nodes, former, plan).Some?
    ensures Check(nodes, former, plan) == Some(NoControlPlane) || Check(nodes, former, plan) == Some(DisappearedEarly)
    ensures Check(nodes, former, plan) == Some(NoControlPlane) ==>
      forall n :: n in nodes ==> !(n.ready && n.role == ControlPlane)
    ensures Check(nodes, former, plan) == Some(DisappearedEarly) ==>
      ControlPlaneReady(nodes) && !GoodAt(nodes, former, plan)
  {
    hide Contains;
    CheckMeans(nodes, former, plan);
  }

  // ---- the sampling loop ----

  datatype Snapshot = Seen(value: Observation) | Unreachable | Broken
  /** One pass of the loop: the snapshot, and the exit code if the lifecycle command has ended. */
  datatype Tick = Tick(snapshot: Snapshot, exit: Option<int>)

  datatype Stop = Converged | CommandFailed | ReadBroken | TimedOut

  predicate Settled(nodes: seq<Node>, plan: Plan) {
    && |nodes| == 2
    && forall n :: n in nodes ==> n.ready && Contains(n.image, plan.newVersion) && Contains(n.name, plan.identity)
  }

  /** Every snapshot that was read, in order. */
  function Taken(ticks: seq<Tick>): seq<Observation> {
    if ticks == [] then []
    else
      var last := ticks[|ticks|-1].snapshot;
      Taken(ticks[..|ticks|-1]) + (if last.Seen? then [last.value] else [])
  }

  lemma TakenNext(ticks: seq<Tick>, i: nat)
    requires i < |ticks|
    ensures Taken(ticks[..i+1]) == Taken(ticks[..i]) + (if ticks[i].snapshot.Seen? then [ticks[i].snapshot.value] else [])
  {
    assert ticks[..i+1][..i] == ticks[..i];
  }

  /** The pass that ends the loop in this way: a failed read, a command that failed, or a settled
      cluster after a command that succeeded. */
  predicate Ends(t: Tick, plan: Plan, stop: Stop) {
    match stop
    case ReadBroken => t.snapshot.Broken?
    case CommandFailed => !t.snapshot.Broken? && t.exit.Some? && t.exit != Some(0)
    case Converged => t.snapshot.Seen? && t.exit == Some(0) && Settled(t.snapshot.value.nodes, plan)
    case TimedOut => false
  }

  predicate GoesOn(t: Tick, plan: Plan) {
    !Ends(t, plan, ReadBroken) && !Ends(t, plan, CommandFailed) && !Ends(t, plan, Converged)
  }

  /** The loop made n passes and the last of them, if any, ended it so; none before did. */
  predicate EndsAfter(ticks: seq<Tick>, plan: Plan, n: nat, stop: Stop)
    requires n <= |ticks|
  {
    && (if stop.TimedOut? then n == |ticks| else n > 0 && Ends(ticks[n-1], plan, stop))
    && forall i :: 0 <= i < (if stop.TimedOut? then n else n - 1) ==> GoesOn(ticks[i], plan)
  }

  /** Interruptions of the workload API that ended: snapshots right after a pass without one. */
  function Interruptions(ticks: seq<Tick>, n: nat): nat
    requires n <= |ticks|
  {
    if n <= 1 then 0
    else Interruptions(ticks, n - 1) + (if ticks[n-1].snapshot.Seen? && ticks[n-2].snapshot.Unreachable? then 1 else 0)
  }

  /** The loop of `main`, up to its end: what it kept is the compression of everything it read in the
      passes it made. `gaps` counts interruptions of the workload API that ended. */
  method Watch(first: Observation, ticks: seq<Tick>, plan: Plan)
    returns (stop: Stop, observations: seq<Observation>, gaps: nat, used: nat)
    ensures used <= |ticks| && observations == Compress([first] + Taken(ticks[..used]))
    ensures EndsAfter(ticks, plan, used, stop) && gaps == Interruptions(ticks, used)
    ensures stop.Converged? ==>
      && used > 0 && ticks[used-1].snapshot.Seen? && ticks[used-1].exit == Some(0)
      && Settled(ticks[used-1].snapshot.value.nodes, plan)
      && (gaps == 0 <==> forall i :: 0 <= i < used ==> !ticks[i].snapshot.Unreachable?)
  {
    hide Compress, Taken, Settled;
    observations := [first];
    StartsWith(first, ticks);
    var last := first;
    var gap := false;
    gaps := 0;
    for i := 0 to |ticks|
      invariant observations == Compress([first] + Taken(ticks[..i]))
      invariant SameSignature(observations[|observations|-1], last)
      invariant forall j :: 0 <= j < i ==> GoesOn(ticks[j], plan)
      invariant gaps == Interruptions(ticks, i) && (gap <==> i > 0 && ticks[i-1].snapshot.Unreachable?)
      invariant gaps == 0 && !gap <==> forall j :: 0 <= j < i ==> !ticks[j].snapshot.Unreachable?
    {
      var tick := ticks[i];
      TakenNext(ticks, i);
      CompressNext(first, ticks, i);
      match tick.snapshot
      case Broken => return ReadBroken, observations, gaps, i + 1;
      case Unreachable =>
        gap := true;
        if tick.exit.Some? && tick.exit != Some(0) { return CommandFailed, observations, gaps, i + 1; }
      case Seen(current) =>
        if gap { gaps, gap := gaps + 1, false; }
        if !SameSignature(last, current) {
          observations := observations + [current];
          last := current;
        }
        if tick.exit.Some? && Settled(current.nodes, plan) {
          if tick.exit != Some(0) { return CommandFailed, observations, gaps, i + 1; }
          return Converged, observations, gaps, i + 1;
        }
        if tick.exit.Some? && tick.exit != Some(0) { return CommandFailed, observations, gaps, i + 1; }
    }
    return TimedOut, observations, gaps, |ticks|;
  }

  lemma StartsWith(first: Observation, ticks: seq<Tick>)
    ensures Compress([first] + Taken(ticks[..0])) == [first]
  {
    assert [first] + Taken(ticks[..0]) == [first];
  }

  lemma CompressNext(first: Observation, ticks: seq<Tick>, i: nat)
    requires i < |ticks|
    ensures var before := Compress([first] + Taken(ticks[..i]));
      Compress([first] + Taken(ticks[..i+1])) ==
        if !ticks[i].snapshot.Seen? || SameSignature(before[|before|-1], ticks[i].snapshot.value) then before
        else before + [ticks[i].snapshot.value]
  {
    TakenNext(ticks, i);
    var s := [first] + Taken(ticks[..i]);
    if ticks[i].snapshot.Seen? {
      var t := s + [ticks[i].snapshot.value];
      assert t == [first] + Taken(ticks[..i+1]) && t[..|t|-1] == s;
    } else {
      assert s == [first] + Taken(ticks[..i+1]);
    }
  }

  /** The loop ends in one way only. */
  lemma OneEnd(ticks: seq<Tick>, plan: Plan, n: nat, stop: Stop)
    requires n <= |ticks| && EndsAfter(ticks, plan, n, stop) && !stop.Converged?
    ensures forall m :: 0 <= m <= |ticks| ==> !EndsAfter(ticks, plan, m, Converged)
  {
    forall k | 0 <= k < |ticks| && Ends(ticks[k], plan, Converged) ensures n - 1 < k && !stop.TimedOut? {
      assert !GoesOn(ticks[k], plan);
    }
    assert n > 0 && !stop.TimedOut? ==> !GoesOn(ticks[n-1], plan);
  }

  /** A whole run: a proof vouches for every snapshot the loop read, kept or not. */
  method Prove(first: Observation, ticks: seq<Tick>, plan: Plan) returns (verdict: Option<Verdict>, continuous: bool)
    ensures verdict.Some? <==> exists n :: 0 <= n <= |ticks| && EndsAfter(ticks, plan, n, Converged)
    ensures verdict.Some? ==>
      exists n :: 0 <= n <= |ticks| && EndsAfter(ticks, plan, n, Converged)
        && verdict.value == Verify([first] + Taken(ticks[..n]), plan)
    ensures verdict.Some? && verdict.value.Proof? ==>
      exists used :: 0 < used <= |ticks| && NeverUnserved([first] + Taken(ticks[..used]), plan, verdict.value)
        && verdict.value == Verify([first] + Taken(ticks[..used]), plan)
        && (continuous <==> forall i :: 0 <= i < used ==> !ticks[i].snapshot.Unreachable?)
  {
    hide NeverUnserved, Verify, Settled;
    var stop, observations, gaps, used := Watch(first, ticks, plan);
    if !stop.Converged? {
      OneEnd(ticks, plan, used, stop);
      return None, false;
    }
    ghost var samples := [first] + Taken(ticks[..used]);
    CompressionFaithful(samples, plan);
    verdict, continuous := Some(Verify(observations, plan)), gaps == 0;
    if verdict.value.Proof? { AcceptedMeans(samples, plan); }
  }
}
