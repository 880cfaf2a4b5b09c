/** What one run of `ok up` achieves when nothing else happens: exactly from which disks it enters the
    live executor, and from which a prepare-only run completes its preparation. */
module FenceAlone {
  import opened Wrappers
  import opened StartFence
  import opened FenceLimits

  /** n file accesses of one process, with the operator's ok; `rendered` is the digest of a manifest it
      may render. */
  function Repeat(s: State, pid: Pid, rendered: Digest, n: nat): State
    decreases n
  {
    if n == 0 then s else Repeat(Apply(s, Advance(pid, true, rendered)), pid, rendered, n - 1)
  }

  datatype Goal = Entered(digest: Digest) | Prepared

  /** The executor was just entered with this digest, or the preparation is complete. */
  predicate Met(s: State, pid: Pid, goal: Goal) {
    && pid in s.live
    && if goal.Prepared? then s.live[pid].phase.Completing?
       else s.live[pid].phase == Running(goal.digest) && s.log != [] && s.log[|s.log|-1] == Started(pid, goal.digest)
  }

  ghost predicate Gets(s: State, pid: Pid, rendered: Digest, goal: Goal) {
    exists n: nat :: Met(Repeat(s, pid, rendered, n), pid, goal)
  }

  lemma GetsNext(s: State, pid: Pid, rendered: Digest, goal: Goal)
    requires !Met(s, pid, goal)
    ensures Gets(s, pid, rendered, goal) <==> Gets(Apply(s, Advance(pid, true, rendered)), pid, rendered, goal)
  {
    hide Met, Apply;
    var t := Apply(s, Advance(pid, true, rendered));
    if Gets(s, pid, rendered, goal) {
      var n: nat :| Met(Repeat(s, pid, rendered, n), pid, goal);
      assert Repeat(s, pid, rendered, n) == Repeat(t, pid, rendered, n - 1);
    }
    if Gets(t, pid, rendered, goal) {
      var n: nat :| Met(Repeat(t, pid, rendered, n), pid, goal);
      assert Repeat(s, pid, rendered, n + 1) == Repeat(t, pid, rendered, n);
    }
  }

  lemma {:induction false} StaysOut(s: State, pid: Pid, rendered: Digest, n: nat)
    requires pid !in s.live
    ensures pid !in Repeat(s, pid, rendered, n).live
  {
    if n > 0 { StaysOut(Apply(s, Advance(pid, true, rendered)), pid, rendered, n - 1); }
  }

  lemma GoneGetsNothing(s: State, pid: Pid, rendered: Digest, goal: Goal)
    requires pid !in s.live
    ensures !Gets(s, pid, rendered, goal)
  {
    hide Apply;
    forall n: nat ensures !Met(Repeat(s, pid, rendered, n), pid, goal) { StaysOut(s, pid, rendered, n); }
  }

  /** The process alone, in this phase. */
  predicate In(s: State, pid: Pid, phase: Phase, prepareOnly: bool) {
    s.live == map[pid := Process(phase, prepareOnly)]
  }

  /** The goal cannot be met in this phase. */
  predicate Short(phase: Phase, goal: Goal) {
    if goal.Prepared? then !phase.Completing? else phase != Running(goal.digest)
  }

  /** The step it takes, where the goal is not met yet. */
  lemma Next(s: State, pid: Pid, phase: Phase, prepareOnly: bool, rendered: Digest, goal: Goal) returns (t: State)
    requires In(s, pid, phase, prepareOnly) && Short(phase, goal)
    ensures var next := After(s, phase, prepareOnly, true, rendered);
      && (next.None? ==> !Gets(s, pid, rendered, goal))
      && (next.Some? ==> In(t, pid, next.value, prepareOnly))
      && (next.Some? ==> (Gets(s, pid, rendered, goal) <==> Gets(t, pid, rendered, goal)))
    ensures t.disk == Touch(s.disk, phase)
    ensures t.manifest == if phase.WritingClaim? then Some(rendered) else s.manifest
    ensures phase.Starting? ==> t.log == s.log + [Started(pid, phase.digest)]
  {
    hide After, Touch, Gets;
    GetsNext(s, pid, rendered, goal);
    t := Apply(s, Advance(pid, true, rendered));
    if After(s, phase, prepareOnly, true, rendered).None? { GoneGetsNothing(t, pid, rendered, goal); }
  }

  /** A step that succeeds. */
  lemma To(s: State, pid: Pid, phase: Phase, next: Phase, prepareOnly: bool, rendered: Digest, goal: Goal) returns (t: State)
    requires In(s, pid, phase, prepareOnly) && Short(phase, goal) && After(s, phase, prepareOnly, true, rendered) == Some(next)
    ensures In(t, pid, next, prepareOnly) && (Gets(s, pid, rendered, goal) <==> Gets(t, pid, rendered, goal))
    ensures t.disk == Touch(s.disk, phase)
    ensures t.manifest == if phase.WritingClaim? then Some(rendered) else s.manifest
  {
    hide After, In, Gets, Short, Touch;
    t := Next(s, pid, phase, prepareOnly, rendered, goal);
  }

  /** Steps that leave the disk as it is. */
  predicate Looking(phase: Phase) {
    || Reviews(phase) || phase.Entering? || phase.Checking? || phase.CheckingEnd? || phase.Choosing? || phase.BesideManaged?
    || phase.RereadingRequest? || phase.ReadingRequest? || phase.LookingForClaim? || phase.LookingForHandoff?
    || phase.Completing?
  }

  lemma Look(s: State, pid: Pid, phase: Phase, prepareOnly: bool, rendered: Digest, goal: Goal) returns (t: State)
    requires In(s, pid, phase, prepareOnly) && Short(phase, goal) && Looking(phase)
    ensures var next := After(s, phase, prepareOnly, true, rendered);
      && (next.None? ==> !Gets(s, pid, rendered, goal))
      && (next.Some? ==> In(t, pid, next.value, prepareOnly))
      && (next.Some? ==> (Gets(s, pid, rendered, goal) <==> Gets(t, pid, rendered, goal)))
    ensures t.disk == s.disk && t.manifest == s.manifest
  {
    hide After, In, Gets, Short;
    t := Next(s, pid, phase, prepareOnly, rendered, goal);
  }

  // ---- from the fence to the executor ----

  /** Once the fence is there, nothing but the four syncs is left to do. */
  lemma Launches(s: State, pid: Pid, d: Digest, rendered: Digest, e: Digest)
    requires In(s, pid, Writing(d), false)
    ensures Gets(s, pid, rendered, Entered(e)) <==> e == d
  {
    hide Gets, In, Met, Touch;
    var t := Next(s, pid, Writing(d), false, rendered, Entered(e));
    t := Next(t, pid, SyncingRoot(d), false, rendered, Entered(e));
    t := Next(t, pid, SyncingRuns(d), false, rendered, Entered(e));
    t := Next(t, pid, SyncingOk(d), false, rendered, Entered(e));
    Starts(t, pid, d, rendered, e);
  }

  lemma Starts(s: State, pid: Pid, d: Digest, rendered: Digest, e: Digest)
    requires In(s, pid, Starting(d), false)
    ensures Gets(s, pid, rendered, Entered(e)) <==> e == d
  {
    hide Gets, Touch;
    var t := Next(s, pid, Starting(d), false, rendered, Entered(e));
    if e == d {
      GetsNow(t, pid, rendered, Entered(e));
    } else {
      var gone := Next(t, pid, Running(d), false, rendered, Entered(e));
    }
  }

  lemma GetsNow(s: State, pid: Pid, rendered: Digest, goal: Goal)
    requires Met(s, pid, goal)
    ensures Gets(s, pid, rendered, goal)
  {
    assert Met(Repeat(s, pid, rendered, 0), pid, goal);
  }

  /** No marker of a start or an end. */
  predicate Unstarted(d: Disk) {
    Fence !in d.visible && Terminal !in d.visible
  }

  lemma Reviewed(s: State, pid: Pid, d: Digest, rendered: Digest, e: Digest)
    requires In(s, pid, Reviewing(d), false)
    ensures Gets(s, pid, rendered, Entered(e)) <==> s.manifest == Some(d) && Unstarted(s.disk) && e == d
  {
    hide Gets, In, Touch;
    var t := Look(s, pid, Reviewing(d), false, rendered, Entered(e));
    if s.manifest == Some(d) {
      t := Look(t, pid, ReviewingEnd(d), false, rendered, Entered(e));
      if Terminal !in s.disk.visible {
        t := Look(t, pid, Asking(d), false, rendered, Entered(e));
        Approved(t, pid, d, rendered, e);
      }
    }
  }

  lemma Approved(s: State, pid: Pid, d: Digest, rendered: Digest, e: Digest)
    requires In(s, pid, Confirmed(d), false) && s.manifest == Some(d) && Terminal !in s.disk.visible
    ensures Gets(s, pid, rendered, Entered(e)) <==> Fence !in s.disk.visible && e == d
  {
    hide Gets, In, Touch;
    var t := Look(s, pid, Confirmed(d), false, rendered, Entered(e));
    t := Look(t, pid, ConfirmedEnd(d), false, rendered, Entered(e));
    t := Next(t, pid, Fencing(d), false, rendered, Entered(e));
    if Fence !in s.disk.visible { Launches(t, pid, d, rendered, e); }
  }

  /** A managed preparation that names this manifest. */
  predicate Manages(d: Disk, manifest: Option<Digest>, e: Digest) {
    Managed in d.visible && d.visible[Managed] == Text(e) && manifest == Some(e)
  }

  lemma Guides(s: State, pid: Pid, rendered: Digest, e: Digest)
    requires In(s, pid, Guided, false)
    ensures Gets(s, pid, rendered, Entered(e)) <==>
      RunDir in s.disk.visible && Unstarted(s.disk) && Manages(s.disk, s.manifest, e)
  {
    hide Gets, In, Touch;
    var v := s.disk.visible;
    var t := Look(s, pid, Guided, false, rendered, Entered(e));
    if RunDir in v {
      t := Look(t, pid, GuidedChecking, false, rendered, Entered(e));
      if Fence !in v {
        t := Look(t, pid, GuidedCheckingEnd, false, rendered, Entered(e));
        if Terminal !in v {
          t := Look(t, pid, ReadingSetup, false, rendered, Entered(e));
          if Managed in v && v[Managed].Text? {
            var d := v[Managed].digest;
            t := Look(t, pid, Rechecking(d), false, rendered, Entered(e));
            t := Look(t, pid, RecheckingEnd(d), false, rendered, Entered(e));
            Reviewed(t, pid, d, rendered, e);
          }
        }
      }
    }
  }

  // ---- up to the managed preparation ----

  /** An earlier run got as far as a managed preparation; a request beside it must be readable. */
  predicate Resumes(d: Disk) {
    Managed in d.visible && (Request in d.visible ==> d.visible[Request].Text?)
  }

  /** The request waits, the operator of the platform has answered it, and nobody has claimed the answer. */
  predicate Continues(d: Disk) {
    Managed !in d.visible && RequestReadable(d) && Claim !in d.visible && Handoff in d.visible
  }

  predicate Completes(d: Disk) {
    RunDir in d.visible && Unstarted(d) && (Resumes(d) || Continues(d))
  }

  /** What is there once the preparation is complete. */
  predicate CompletedFrom(s: State, u: State, rendered: Digest) {
    && RunDir in u.disk.visible && Unstarted(u.disk)
    && (if Resumes(s.disk) then u.disk == s.disk && u.manifest == s.manifest
        else Managed in u.disk.visible && u.disk.visible[Managed] == Text(rendered) && u.manifest == Some(rendered))
  }

  lemma Claims(s: State, pid: Pid, prepareOnly: bool, rendered: Digest, goal: Goal) returns (u: State)
    requires In(s, pid, ReadingRequest, prepareOnly) && RunDir in s.disk.visible && Unstarted(s.disk)
    requires Managed !in s.disk.visible
    ensures Continues(s.disk) ==> In(u, pid, Completing, prepareOnly) && CompletedFrom(s, u, rendered)
    ensures Gets(s, pid, rendered, goal) <==> Continues(s.disk) && Gets(u, pid, rendered, goal)
  {
    hide Gets, In, Touch;
    u := Look(s, pid, ReadingRequest, prepareOnly, rendered, goal);
    if RequestReadable(s.disk) {
      u := Look(u, pid, LookingForClaim, prepareOnly, rendered, goal);
      if Claim !in s.disk.visible {
        u := Look(u, pid, LookingForHandoff, prepareOnly, rendered, goal);
        if Handoff in s.disk.visible { u := Writes(u, pid, prepareOnly, rendered, goal); }
      }
    }
  }

  lemma Writes(s: State, pid: Pid, prepareOnly: bool, rendered: Digest, goal: Goal) returns (u: State)
    requires In(s, pid, ClaimingHandoff, prepareOnly) && RunDir in s.disk.visible && Unstarted(s.disk)
    requires Managed !in s.disk.visible && Claim !in s.disk.visible
    ensures In(u, pid, Completing, prepareOnly) && CompletedFrom(s, u, rendered)
    ensures Gets(s, pid, rendered, goal) <==> Gets(u, pid, rendered, goal)
  {
    hide Gets, In;
    u := To(s, pid, ClaimingHandoff, WritingClaim, prepareOnly, rendered, goal);
    u := To(u, pid, WritingClaim, Finishing(rendered), prepareOnly, rendered, goal);
    u := WritesSetup(u, pid, prepareOnly, rendered, goal);
  }

  lemma WritesSetup(s: State, pid: Pid, prepareOnly: bool, rendered: Digest, goal: Goal) returns (u: State)
    requires In(s, pid, Finishing(rendered), prepareOnly) && RunDir in s.disk.visible && Unstarted(s.disk)
    requires Managed !in s.disk.visible && s.manifest == Some(rendered)
    ensures In(u, pid, Completing, prepareOnly) && CompletedFrom(s, u, rendered)
    ensures Gets(s, pid, rendered, goal) <==> Gets(u, pid, rendered, goal)
  {
    hide Gets, In;
    u := To(s, pid, Finishing(rendered), WritingSetup(rendered), prepareOnly, rendered, goal);
    u := To(u, pid, WritingSetup(rendered), Completing, prepareOnly, rendered, goal);
  }

  lemma Checks(s: State, pid: Pid, prepareOnly: bool, rendered: Digest, goal: Goal) returns (u: State)
    requires In(s, pid, Checking, prepareOnly) && RunDir in s.disk.visible
    ensures Completes(s.disk) ==> In(u, pid, Completing, prepareOnly) && CompletedFrom(s, u, rendered)
    ensures Gets(s, pid, rendered, goal) <==> Completes(s.disk) && Gets(u, pid, rendered, goal)
  {
    hide Gets, In, Touch;
    var v := s.disk.visible;
    u := Look(s, pid, Checking, prepareOnly, rendered, goal);
    if Fence !in v {
      u := Look(u, pid, CheckingEnd, prepareOnly, rendered, goal);
      if Terminal !in v {
        u := Look(u, pid, Choosing, prepareOnly, rendered, goal);
        if Managed !in v {
          u := Claims(u, pid, prepareOnly, rendered, goal);
        } else {
          u := Look(u, pid, BesideManaged, prepareOnly, rendered, goal);
          if Request in v { u := Look(u, pid, RereadingRequest, prepareOnly, rendered, goal); }
        }
      }
    }
  }

  // ---- the whole run ----

  lemma Enters(s: State, prepareOnly: bool, rendered: Digest, goal: Goal) returns (u: State)
    requires Formed(s.disk) && s.live == map[]
    ensures Completes(s.disk) ==> In(u, s.issued, Completing, prepareOnly) && CompletedFrom(s, u, rendered)
    ensures Gets(Apply(s, Spawn(prepareOnly)), s.issued, rendered, goal) <==>
      Completes(s.disk) && Gets(u, s.issued, rendered, goal)
  {
    hide Gets;
    var pid := s.issued;
    u := Apply(s, Spawn(prepareOnly));
    u := Look(u, pid, Entering, prepareOnly, rendered, goal);
    if RunDir in s.disk.visible {
      u := Checks(u, pid, prepareOnly, rendered, goal);
    } else {
      u := Prepares(s, u, pid, prepareOnly, rendered, goal);
      var w := Checks(u, pid, prepareOnly, rendered, goal);
    }
  }

  /** A fresh run directory holds no answer from the platform yet. */
  lemma Prepares(s: State, t: State, pid: Pid, prepareOnly: bool, rendered: Digest, goal: Goal) returns (u: State)
    requires Formed(s.disk) && t.disk == s.disk && RunDir !in s.disk.visible && In(t, pid, NeedsOk, prepareOnly)
    ensures In(u, pid, Checking, prepareOnly) && RunDir in u.disk.visible && !Completes(u.disk)
    ensures Gets(t, pid, rendered, goal) <==> Gets(u, pid, rendered, goal)
  {
    hide Gets, In, Formed;
    NoFilesOutside(s.disk);
    assert IsFile(Handoff) && IsFile(Managed) && IsFile(Request);
    u := To(t, pid, NeedsOk, NeedsRuns, prepareOnly, rendered, goal);
    u := To(u, pid, NeedsRuns, NeedsRoot, prepareOnly, rendered, goal);
    u := To(u, pid, NeedsRoot, Rendering, prepareOnly, rendered, goal);
    u := Renders(u, pid, prepareOnly, rendered, goal);
  }

  lemma Renders(s: State, pid: Pid, prepareOnly: bool, rendered: Digest, goal: Goal) returns (u: State)
    requires In(s, pid, Rendering, prepareOnly) && RunDir in s.disk.visible
    requires Request !in s.disk.visible && Managed !in s.disk.visible && Handoff !in s.disk.visible
    ensures In(u, pid, Checking, prepareOnly) && RunDir in u.disk.visible && !Completes(u.disk)
    ensures Gets(s, pid, rendered, goal) <==> Gets(u, pid, rendered, goal)
  {
    hide Gets, In;
    u := To(s, pid, Rendering, WritingRequest, prepareOnly, rendered, goal);
    u := To(u, pid, WritingRequest, Checking, prepareOnly, rendered, goal);
  }

  /** A run alone, with the operator's ok, enters the executor with digest e exactly when the run
      directory is there without fence or terminal marker and either holds a managed preparation that
      names e, the prepared manifest still is e and a request beside it is readable, or holds a readable
      request with an unclaimed answer of the platform, from which it renders e. */
  lemma EntersExactly(s: State, rendered: Digest, e: Digest)
    requires Formed(s.disk) && s.live == map[]
    ensures Gets(Apply(s, Spawn(false)), s.issued, rendered, Entered(e)) <==>
      && RunDir in s.disk.visible && Unstarted(s.disk)
      && ((Resumes(s.disk) && Manages(s.disk, s.manifest, e)) || (Continues(s.disk) && e == rendered))
  {
    hide Gets;
    var u := Enters(s, false, rendered, Entered(e));
    if Completes(s.disk) {
      var t := Look(u, s.issued, Completing, false, rendered, Entered(e));
      Guides(t, s.issued, rendered, e);
    }
  }

  /** A prepare-only run alone completes its preparation from exactly the same disks. */
  lemma PreparesExactly(s: State, rendered: Digest)
    requires Formed(s.disk) && s.live == map[]
    ensures Gets(Apply(s, Spawn(true)), s.issued, rendered, Prepared) <==> Completes(s.disk)
  {
    hide Gets;
    var u := Enters(s, true, rendered, Prepared);
    if Completes(s.disk) { GetsNow(u, s.issued, rendered, Prepared); }
  }
}
