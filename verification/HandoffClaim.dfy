/** The claim of the platform handoff: once as long as its entry survives, and exactly when once at all. */
module HandoffClaim {
  import opened Wrappers
  import opened StartFence
  import opened FenceLimits

  /** A power loss that could take the claim: its entry, or one of a directory above it, was not durable. */
  predicate Unheld(e: Event) {
    e.PowerLost? && !e.held
  }

  /** Claimed since the last power loss that could take the claim. */
  predicate ClaimHeld(log: seq<Event>) {
    log != [] &&
    var last := log[|log|-1];
    last.Claimed? || (!Unheld(last) && ClaimHeld(log[..|log|-1]))
  }

  ghost predicate ClaimInv(s: State) {
    && (ClaimHeld(s.log) ==> Claim in s.disk.visible)
    && forall n :: 0 <= n < |s.log| && s.log[n].Claimed? ==> !ClaimHeld(s.log[..n])
  }

  lemma ClaimAfter(s: State, more: seq<Event>, disk: Disk)
    requires ClaimInv(s) && |more| <= 1
    requires more != [] && more[0].Claimed? ==> Claim !in s.disk.visible && Claim in disk.visible
    requires (more == [] || !Unheld(more[0])) && Claim in s.disk.visible ==> Claim in disk.visible
    ensures ClaimInv(s.(log := s.log + more, disk := disk))
  {
    var log := s.log + more;
    if more == [] {
      assert log == s.log;
    } else {
      assert log[..|s.log|] == s.log;
    }
    forall n | 0 <= n < |log| && log[n].Claimed? ensures !ClaimHeld(log[..n]) { assert log[..n] == s.log[..n]; }
  }

  lemma ActionClaims(s: State, a: Action)
    requires ClaimInv(s) && Enabled(s, a)
    ensures ClaimInv(Apply(s, a))
  {
    hide ClaimHeld;
    var t := Apply(s, a);
    match a
    case Advance(pid, answer, rendered) =>
      TouchGrows(s.disk, s.live[pid].phase);
      ClaimAfter(s, Record(s, pid, s.live[pid].phase, answer), t.disk);
    case LosePower(kept, garbled) =>
      assert Rooted(s.disk, Claim) ==> Rooted(s.disk, RunDir) && Rooted(s.disk, RunsDir) && Rooted(s.disk, OkDir);
      ClaimAfter(s, [Loss(s.disk)], t.disk);
    case Supply => ClaimAfter(s, [], t.disk);
    case _ =>
  }

  lemma {:induction false} RunClaims(s: State, actions: seq<Action>)
    requires ClaimInv(s) && Feasible(s, actions)
    ensures ClaimInv(Outcome(s, actions))
    decreases |actions|
  {
    if actions != [] {
      ActionClaims(s, actions[0]);
      RunClaims(Apply(s, actions[0]), actions[1..]);
    }
  }

  lemma {:induction false} HeldUntilLoss(log: seq<Event>, i: nat, n: nat)
    requires i < n <= |log| && log[i].Claimed? && forall k :: i < k < n ==> !Unheld(log[k])
    ensures ClaimHeld(log[..n])
  {
    assert log[..n][..n-1] == log[..n-1];
    if i < n - 1 { HeldUntilLoss(log, i, n - 1); }
  }

  /** Two claims of the platform handoff are separated by a power loss that hit while the claim was
      not durable, or a directory above it was not. */
  lemma ClaimsAreApart(s: State, actions: seq<Action>, i: nat, j: nat)
    requires Initial(s) && Feasible(s, actions)
    requires var log := Outcome(s, actions).log; i < j < |log| && log[i].Claimed? && log[j].Claimed?
    ensures var log := Outcome(s, actions).log; exists k :: i < k < j && Unheld(log[k])
  {
    RunClaims(s, actions);
    var log := Outcome(s, actions).log;
    if forall k :: i < k < j ==> !Unheld(log[k]) {
      HeldUntilLoss(log, i, j);
      assert false;
    }
  }

  ghost predicate AtMostOneClaim(log: seq<Event>) {
    forall i, j :: 0 <= i < j < |log| ==> !(log[i].Claimed? && log[j].Claimed?)
  }

  lemma CrashesClaimOnce(s: State, actions: seq<Action>)
    requires Initial(s) && Feasible(s, actions) && forall a :: a in actions ==> !a.LosePower?
    ensures AtMostOneClaim(Outcome(s, actions).log)
  {
    var log := Outcome(s, actions).log;
    NoLossLogged(s, actions);
    forall i, j | 0 <= i < j < |log| && log[i].Claimed? && log[j].Claimed? ensures false {
      ClaimsAreApart(s, actions, i, j);
    }
  }

  lemma NoLossLogged(s: State, actions: seq<Action>)
    requires Feasible(s, actions) && forall k :: 0 <= k < |s.log| ==> !Unheld(s.log[k])
    requires forall a :: a in actions ==> !a.LosePower?
    ensures var log := Outcome(s, actions).log; forall k :: 0 <= k < |log| ==> !Unheld(log[k])
    decreases |actions|
  {
    if actions != [] { NoLossLogged(Apply(s, actions[0]), actions[1..]); }
  }

  /** The run directory is there for good, and so is something that stops every later claim, or the
      request a claim needs can never appear in it. */
  predicate Settled(d: Disk) {
    && OkDir in d.durable && RunsDir in d.durable && RunDir in d.durable
    && (!RequestReadable(d) || Claim in d.durable || Managed in d.durable || Fence in d.durable || Terminal in d.durable)
  }

  predicate Harmless(d: Disk, phase: Phase) {
    && !phase.NeedsOk? && !phase.NeedsRuns? && !phase.NeedsRoot? && !phase.Rendering? && !phase.WritingRequest?
    && !phase.LookingForHandoff? && !phase.ClaimingHandoff?
    && (!RequestReadable(d) || Claim in d.durable || Managed in d.durable || Terminal in d.durable || !phase.CheckingEnd?)
    && (!RequestReadable(d) || Claim in d.durable || !phase.LookingForClaim?)
    && (!RequestReadable(d) || Claim in d.durable || Managed in d.durable || (!phase.ReadingRequest? && !phase.Choosing?))
    && (phase.ReadingRequest? ==> !RequestReadable(d) || Claim in d.durable)
    && (phase.LookingForClaim? ==> Claim in d.durable)
  }

  ghost predicate Unclaimable(s: State) {
    && Formed(s.disk) && Settled(s.disk)
    && (forall pid :: pid in s.live ==> Harmless(s.disk, s.live[pid].phase))
    && forall n :: 0 <= n < |s.log| ==> !s.log[n].Claimed?
  }

  lemma HarmlessNext(s: State, phase: Phase, prepareOnly: bool, answer: bool, rendered: Digest)
    requires Formed(s.disk) && Settled(s.disk) && Harmless(s.disk, phase)
    ensures var next := After(s, phase, prepareOnly, answer, rendered);
      next.Some? ==> Harmless(Touch(s.disk, phase), next.value)
  {
  }

  lemma HarmlessTouch(d: Disk, phase: Phase, other: Phase)
    requires Formed(d) && Settled(d) && Harmless(d, phase) && Harmless(d, other)
    ensures Formed(Touch(d, phase)) && Settled(Touch(d, phase)) && Harmless(Touch(d, phase), other)
  {
  }

  lemma ActionUnclaimable(s: State, a: Action)
    requires Unclaimable(s) && Enabled(s, a)
    ensures Unclaimable(Apply(s, a))
  {
    hide Touch, After;
    var t := Apply(s, a);
    match a
    case Advance(pid, answer, rendered) =>
      var p := s.live[pid];
      HarmlessNext(s, p.phase, p.prepareOnly, answer, rendered);
      HarmlessTouch(s.disk, p.phase, p.phase);
      forall q | q in t.live ensures Harmless(t.disk, t.live[q].phase) {
        if q != pid { HarmlessTouch(s.disk, p.phase, s.live[q].phase); }
      }
    case _ =>
  }

  lemma {:induction false} RunUnclaimable(s: State, actions: seq<Action>)
    requires Unclaimable(s) && Feasible(s, actions)
    ensures Unclaimable(Outcome(s, actions))
    decreases |actions|
  {
    if actions != [] {
      ActionUnclaimable(s, actions[0]);
      RunUnclaimable(Apply(s, actions[0]), actions[1..]);
    }
  }

  /** A disk, all of it durable, from which a process can get as far as a claim. */
  ghost predicate Claimable(d: Disk) {
    && Formed(d) && d.durable == d.visible.Keys
    && (RunDir in d.visible ==> Unfenced(d) && Unclaimed(d) && RequestReadable(d))
  }

  /** A claim, then a power loss that takes just what was written since. */
  lemma ClaimCycle(s: State, t: State) returns (u: State, n: nat)
    requires Reaches(s, t) && t.live == map[] && Claimable(t.disk)
    ensures Reaches(s, u) && u.live == map[] && Claimable(u.disk) && t.log < u.log
    ensures |t.log| <= n < |u.log| && u.log[n].Claimed?
  {
    hide Reaches, Apply, Record, At, Survives;
    var kept, pid := t.disk.visible.Keys, t.issued;
    if RunDir in t.disk.visible {
      u := Spawned(s, t);
      u := Steps(s, u, pid, 0, Entering, Checking);
    } else {
      u := PrepareRun(s, t);
    }
    u := ClaimRun(s, u, pid);
    n := |u.log| - 1;
    var before := u;
    KeptSurvives(t.disk, u.disk);
    u := Loses(s, u, kept);
    assert u.log[n] == before.log[n];
    assert Remains(before.disk, kept, {}).visible.Keys == kept;
  }

  lemma KeptSurvives(d: Disk, e: Disk)
    requires Claimable(d) && d.visible.Keys <= e.visible.Keys && e.durable == d.durable
    ensures Survives(e, d.visible.Keys)
  {
  }

  function Anchor(d: Disk): set<Entry> {
    set e | e in d.durable && Rooted(d, e)
  }

  lemma AnchorSurvives(d: Disk)
    requires Formed(d)
    ensures Survives(d, Anchor(d))
    ensures RunDir in Anchor(d) ==> OkDir in d.durable && RunsDir in d.durable && RunDir in d.durable
    ensures RunDir in Anchor(d) && RequestReadable(d) ==> Survives(d, Anchor(d) + {Request})
  {
    assert Rooted(d, RunDir) ==> Rooted(d, RunsDir) && Rooted(d, OkDir);
  }

  /** Unless claims are settled, power losses allow a second one. */
  lemma TwoClaims(s: State) returns (actions: seq<Action>)
    requires Initial(s) && !Settled(s.disk)
    ensures Feasible(s, actions) && !AtMostOneClaim(Outcome(s, actions).log)
  {
    assert Reaches(s, s) by { assert Feasible(s, []) && Outcome(s, []) == s; }
    AnchorSurvives(s.disk);
    var chained := RunDir in Anchor(s.disk);
    var kept := if chained then Anchor(s.disk) + {Request} else Anchor(s.disk);
    var t := Loses(s, s, kept);
    assert t.disk.visible.Keys == kept;
    assert Claimable(t.disk);
    var u, n := ClaimCycle(s, t);
    var v, k := ClaimCycle(s, u);
    assert v.log[n] == u.log[n];
    actions :| Feasible(s, actions) && Outcome(s, actions) == v;
  }

  /** A durable run directory does not bound the claims: with a readable request in it, and nothing
      durable that stops a claim, some run claims the handoff twice. */
  lemma ChainIsNotEnough(s: State) returns (actions: seq<Action>)
    requires Initial(s) && Rooted(s.disk, RunDir) && RequestReadable(s.disk)
    requires s.disk.durable !! {Claim, Managed, Fence, Terminal}
    ensures Feasible(s, actions) && !AtMostOneClaim(Outcome(s, actions).log)
  {
    actions := TwoClaims(s);
  }

  /** The platform handoff is claimed at most once in every run from this disk exactly when no run
      from it claims the handoff at all: its start marker is never made durable. */
  lemma ClaimOnceExactly(s: State)
    requires Initial(s)
    ensures (forall actions :: Feasible(s, actions) ==> AtMostOneClaim(Outcome(s, actions).log)) <==> Settled(s.disk)
    ensures Settled(s.disk) ==>
      forall actions, n :: Feasible(s, actions) && 0 <= n < |Outcome(s, actions).log| ==> !Outcome(s, actions).log[n].Claimed?
  {
    if Settled(s.disk) {
      forall actions | Feasible(s, actions) ensures Unclaimable(Outcome(s, actions)) { RunUnclaimable(s, actions); }
    } else {
      var actions := TwoClaims(s);
    }
  }
}
