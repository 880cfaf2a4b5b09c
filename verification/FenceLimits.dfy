/** Concrete whole runs of guided `ok up`, and from them the exact condition under which the
    start fence also holds across power losses. */
module FenceLimits {
  import opened Wrappers
  import opened StartFence

  ghost predicate Reaches(s: State, t: State) {
    exists actions :: Feasible(s, actions) && Outcome(s, actions) == t
  }

  lemma {:induction false} FeasibleMore(s: State, actions: seq<Action>, a: Action)
    requires Feasible(s, actions) && Enabled(Outcome(s, actions), a)
    ensures Feasible(s, actions + [a]) && Outcome(s, actions + [a]) == Apply(Outcome(s, actions), a)
    decreases |actions|
  {
    if actions == [] {
      assert actions + [a] == [a] && [a][1..] == [];
      assert Feasible(Apply(s, a), []);
    } else {
      assert (actions + [a])[1..] == actions[1..] + [a];
      FeasibleMore(Apply(s, actions[0]), actions[1..], a);
    }
  }

  lemma Goes(s: State, t: State, a: Action)
    requires Reaches(s, t) && Enabled(t, a)
    ensures Reaches(s, Apply(t, a))
  {
    var actions :| Feasible(s, actions) && Outcome(s, actions) == t;
    FeasibleMore(s, actions, a);
  }

  /** Review and approval touch nothing on disk. */
  predicate Reviews(phase: Phase) {
    || phase.Guided? || phase.GuidedChecking? || phase.GuidedCheckingEnd? || phase.ReadingSetup?
    || phase.Rechecking? || phase.RecheckingEnd? || phase.Reviewing? || phase.ReviewingEnd?
    || phase.Asking? || phase.Confirmed? || phase.ConfirmedEnd?
  }

  /** One process alone, taking the step that succeeds. */
  lemma Steps(s: State, t: State, pid: Pid, d: Digest, phase: Phase, next: Phase) returns (u: State)
    requires Reaches(s, t) && At(t, pid, phase)
    requires After(t, phase, false, true, d) == Some(next)
    ensures Reaches(s, u) && At(u, pid, next) && u.disk == Touch(t.disk, phase)
    ensures Reviews(phase) ==> u.disk == t.disk
    ensures t.log <= u.log
    ensures phase.ClaimingHandoff? || phase.Starting? ==> |u.log| == |t.log| + 1
    ensures phase.ClaimingHandoff? ==> u.log[|t.log|] == Claimed(pid)
    ensures phase.Starting? ==> u.log[|t.log|] == Started(pid, phase.digest)
    ensures OkDir in u.disk.durable <==> OkDir in t.disk.durable
    ensures u.manifest == if phase.WritingClaim? then Some(d) else t.manifest
  {
    Goes(s, t, Advance(pid, true, d));
    u := Apply(t, Advance(pid, true, d));
  }

  /** A step of the review. */
  lemma Looks(s: State, t: State, pid: Pid, d: Digest, phase: Phase, next: Phase) returns (u: State)
    requires Reaches(s, t) && At(t, pid, phase) && Reviews(phase)
    requires After(t, phase, false, true, d) == Some(next)
    ensures Reaches(s, u) && At(u, pid, next) && u.disk == t.disk && u.manifest == t.manifest && t.log <= u.log
  {
    hide After, Reaches, Touch, At;
    u := Steps(s, t, pid, d, phase, next);
  }

  /** A single process in this phase. */
  ghost predicate At(t: State, pid: Pid, phase: Phase) {
    t.live == map[pid := Process(phase, false)]
  }

  /** The run directory holds neither a fence nor a terminal marker. */
  predicate Unfenced(d: Disk) {
    RunDir in d.visible && Fence !in d.visible && Terminal !in d.visible
  }

  predicate RequestReadable(d: Disk) {
    Request in d.visible && d.visible[Request].Text?
  }

  lemma NoFilesOutside(d: Disk)
    requires Formed(d) && RunDir !in d.visible
    ensures forall e :: IsFile(e) ==> e !in d.visible
  {
    assert forall e :: IsFile(e) ==> Parent(e) == Some(RunDir);
  }

  /** From a disk without the run directory: reserve it. */
  lemma ReserveRun(s: State, t: State) returns (u: State)
    requires Reaches(s, t) && t.live == map[] && Formed(t.disk) && RunDir !in t.disk.visible
    ensures Reaches(s, u) && At(u, t.issued, Rendering) && t.log <= u.log && u.disk.durable == t.disk.durable
    ensures t.disk.visible.Keys <= u.disk.visible.Keys
    ensures RunDir in u.disk.visible && forall e :: IsFile(e) ==> e !in u.disk.visible
  {
    hide Reaches, Apply, Record, At, Formed;
    var pid := t.issued;
    NoFilesOutside(t.disk);
    u := Spawned(s, t);
    u := Steps(s, u, pid, 0, Entering, NeedsOk);
    u := Steps(s, u, pid, 0, NeedsOk, NeedsRuns);
    u := Steps(s, u, pid, 0, NeedsRuns, NeedsRoot);
    u := Steps(s, u, pid, 0, NeedsRoot, Rendering);
  }

  /** Reserve the run directory and render the request into it. */
  lemma PrepareRun(s: State, t: State) returns (u: State)
    requires Reaches(s, t) && t.live == map[] && Formed(t.disk) && RunDir !in t.disk.visible
    ensures Reaches(s, u) && At(u, t.issued, Checking)
    ensures RequestReadable(u.disk) && Unfenced(u.disk) && Unclaimed(u.disk) && t.log <= u.log
    ensures t.disk.visible.Keys <= u.disk.visible.Keys && u.disk.durable == t.disk.durable
  {
    hide Reaches, Apply, Record, At, Formed;
    var pid := t.issued;
    u := ReserveRun(s, t);
    assert IsFile(Request) && IsFile(Claim) && IsFile(Managed) && IsFile(Fence) && IsFile(Terminal);
    u := Steps(s, u, pid, 0, Rendering, WritingRequest);
    u := Steps(s, u, pid, 0, WritingRequest, Checking);
  }

  lemma Spawned(s: State, t: State) returns (u: State)
    requires Reaches(s, t) && t.live == map[]
    ensures Reaches(s, u) && At(u, t.issued, Entering)
    ensures u.disk == t.disk && u.log == t.log && u.manifest == t.manifest
  {
    Goes(s, t, Spawn(false));
    u := Apply(t, Spawn(false));
  }

  lemma Loses(s: State, t: State, kept: set<Entry>) returns (u: State)
    requires Reaches(s, t) && Survives(t.disk, kept)
    ensures Reaches(s, u) && u.disk == Remains(t.disk, kept, {}) && u.live == map[] && u.issued == t.issued
    ensures t.log < u.log
  {
    Goes(s, t, LosePower(kept, {}));
    u := Apply(t, LosePower(kept, {}));
  }

  lemma Supplied(s: State, t: State) returns (u: State)
    requires Reaches(s, t) && RunDir in t.disk.visible
    ensures Reaches(s, u) && u == t.(disk := Create(t.disk, Handoff))
    ensures forall pid, phase :: At(t, pid, phase) ==> At(u, pid, phase)
  {
    Goes(s, t, Supply);
    u := Apply(t, Supply);
  }

  predicate Unclaimed(d: Disk) {
    Claim !in d.visible && Managed !in d.visible
  }

  /** With the handoff file in place, a process that finds no trace of an earlier one claims it. */
  lemma ClaimRun(s: State, t: State, pid: Pid) returns (u: State)
    requires Reaches(s, t) && At(t, pid, Checking)
    requires Unfenced(t.disk) && RequestReadable(t.disk) && Unclaimed(t.disk)
    ensures Reaches(s, u) && At(u, pid, WritingClaim) && Unfenced(u.disk) && Managed !in u.disk.visible
    ensures t.disk.visible.Keys <= u.disk.visible.Keys
    ensures t.log < u.log && u.log[|u.log|-1] == Claimed(pid) && u.disk.durable == t.disk.durable && RequestReadable(u.disk)
  {
    hide Reaches, Apply, Record, At;
    u := Supplied(s, t);
    u := Steps(s, u, pid, 0, Checking, CheckingEnd);
    u := Steps(s, u, pid, 0, CheckingEnd, Choosing);
    u := Steps(s, u, pid, 0, Choosing, ReadingRequest);
    u := Steps(s, u, pid, 0, ReadingRequest, LookingForClaim);
    u := Steps(s, u, pid, 0, LookingForClaim, LookingForHandoff);
    u := Steps(s, u, pid, 0, LookingForHandoff, ClaimingHandoff);
    u := Steps(s, u, pid, 0, ClaimingHandoff, WritingClaim);
  }

  /** From the claim to the managed preparation. */
  lemma FinishRun(s: State, t: State, pid: Pid, d: Digest) returns (u: State)
    requires Reaches(s, t) && At(t, pid, WritingClaim) && RequestReadable(t.disk) && Unfenced(t.disk) && Managed !in t.disk.visible
    ensures Reaches(s, u) && At(u, pid, Guided) && Unfenced(u.disk) && Managed in u.disk.visible
    ensures u.disk.durable == t.disk.durable && t.log <= u.log
    ensures u.manifest == Some(d) && u.disk.visible[Managed] == Text(d)
  {
    hide Reaches, Apply, Record, At;
    u := Steps(s, t, pid, d, WritingClaim, Finishing(d));
    u := Steps(s, u, pid, d, Finishing(d), WritingSetup(d));
    u := Steps(s, u, pid, d, WritingSetup(d), Completing);
    u := Steps(s, u, pid, d, Completing, Guided);
  }

  /** Up to the question put to the operator. */
  lemma ReviewRun(s: State, t: State, pid: Pid, d: Digest) returns (u: State)
    requires Reaches(s, t) && At(t, pid, Guided) && Unfenced(t.disk) && Managed in t.disk.visible
    requires t.manifest == Some(d) && t.disk.visible[Managed] == Text(d)
    ensures Reaches(s, u) && At(u, pid, Reviewing(d)) && u.disk == t.disk && u.manifest == t.manifest && t.log <= u.log
  {
    hide Reaches, Apply, Record, Touch, At;
    u := Looks(s, t, pid, d, Guided, GuidedChecking);
    u := Looks(s, u, pid, d, GuidedChecking, GuidedCheckingEnd);
    u := Looks(s, u, pid, d, GuidedCheckingEnd, ReadingSetup);
    u := Looks(s, u, pid, d, ReadingSetup, Rechecking(d));
    u := Looks(s, u, pid, d, Rechecking(d), RecheckingEnd(d));
    u := Looks(s, u, pid, d, RecheckingEnd(d), Reviewing(d));
  }

  /** Verification, the operator's ok, and the second verification. */
  lemma ConfirmRun(s: State, t: State, pid: Pid, d: Digest) returns (u: State)
    requires Reaches(s, t) && At(t, pid, Reviewing(d)) && Unfenced(t.disk) && t.manifest == Some(d)
    ensures Reaches(s, u) && At(u, pid, Fencing(d)) && u.disk == t.disk && t.log <= u.log
  {
    hide Reaches, Apply, Record, Touch, At;
    u := Looks(s, t, pid, d, Reviewing(d), ReviewingEnd(d));
    u := Looks(s, u, pid, d, ReviewingEnd(d), Asking(d));
    u := Looks(s, u, pid, d, Asking(d), Confirmed(d));
    u := Looks(s, u, pid, d, Confirmed(d), ConfirmedEnd(d));
    u := Looks(s, u, pid, d, ConfirmedEnd(d), Fencing(d));
  }

  /** The fence and its first directory sync. */
  lemma FenceRun(s: State, t: State, pid: Pid, d: Digest) returns (u: State)
    requires Reaches(s, t) && At(t, pid, Fencing(d)) && Unfenced(t.disk) && OkDir !in t.disk.durable
    ensures Reaches(s, u) && At(u, pid, SyncingRuns(d)) && OkDir !in u.disk.durable && t.log <= u.log
  {
    hide Reaches, Apply, Touch, SyncDir, Record, At;
    u := Steps(s, t, pid, d, Fencing(d), Writing(d));
    u := Steps(s, u, pid, d, Writing(d), SyncingRoot(d));
    u := Steps(s, u, pid, d, SyncingRoot(d), SyncingRuns(d));
  }

  /** The other two syncs, and the start. */
  lemma LaunchRun(s: State, t: State, pid: Pid, d: Digest) returns (u: State)
    requires Reaches(s, t) && At(t, pid, SyncingRuns(d)) && OkDir !in t.disk.durable
    ensures Reaches(s, u) && OkDir !in u.disk.durable
    ensures t.log < u.log && u.log[|u.log|-1] == Started(pid, d)
  {
    hide Reaches, Apply, Touch, SyncDir, Record, At;
    u := Steps(s, t, pid, d, SyncingRuns(d), SyncingOk(d));
    u := Steps(s, u, pid, d, SyncingOk(d), Starting(d));
    u := Steps(s, u, pid, d, Starting(d), Running(d));
  }

  /** One whole life on a disk that lost the `ok` entry: prepared, claimed, fenced, started. */
  lemma StartRun(s: State, t: State, d: Digest) returns (u: State)
    requires Reaches(s, t) && OkDir !in t.disk.durable
    ensures Reaches(s, u) && OkDir !in u.disk.durable
    ensures t.log < u.log && u.log[|u.log|-1].Started?
  {
    hide Reaches, Apply, Record, At;
    var pid := t.issued;
    u := Loses(s, t, {});
    u := PrepareRun(s, u);
    u := ClaimRun(s, u, pid);
    u := FinishRun(s, u, pid, d);
    u := ReviewRun(s, u, pid, d);
    u := ConfirmRun(s, u, pid, d);
    u := FenceRun(s, u, pid, d);
    u := LaunchRun(s, u, pid, d);
  }

  /** Without a durable `ok` entry two starts are possible: the fence is synced up to the `ok`
      directory, but the entry of `ok` itself in the user configuration directory never is. */
  lemma TwoStarts(s: State) returns (actions: seq<Action>)
    requires Initial(s) && OkDir !in s.disk.durable
    ensures Feasible(s, actions) && !AtMostOneStart(Outcome(s, actions).log)
  {
    assert Feasible(s, []) && Outcome(s, []) == s;
    var t := StartRun(s, s, 0);
    var u := StartRun(s, t, 0);
    assert u.log[|t.log|-1].Started? && u.log[|u.log|-1].Started?;
    actions :| Feasible(s, actions) && Outcome(s, actions) == u;
  }

  /** The executor is entered at most once in every run from this disk exactly when the entry of the
      `ok` directory is already durable. */
  lemma StartOnceExactly(s: State)
    requires Initial(s)
    ensures (forall actions :: Feasible(s, actions) ==> AtMostOneStart(Outcome(s, actions).log)) <==> OkDir in s.disk.durable
  {
    InitialFence(s);
    if OkDir in s.disk.durable {
      forall actions | Feasible(s, actions) ensures AtMostOneStart(Outcome(s, actions).log) {
        AnchoredRun(s, actions);
        NoLossOneStart(s, actions);
      }
    } else {
      var actions := TwoStarts(s);
    }
  }
}
