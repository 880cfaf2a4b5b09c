/** What backs every entry into the live executor. */
module FenceEvidence {
  import opened Wrappers
  import opened StartFence

  /** The operator typed ok to this process. */
  ghost predicate Approved(log: seq<Event>, n: nat, pid: Pid)
    requires n <= |log|
  {
    exists a :: 0 <= a < n && log[a] == Answered(pid)
  }

  /** After that the prepared manifest was found with this digest. */
  ghost predicate Reverified(log: seq<Event>, n: nat, pid: Pid, d: Digest)
    requires n <= |log|
  {
    exists b :: 0 <= b < n && log[b] == Verified(pid, d) && Approved(log, b, pid)
  }

  /** After that a fence with this digest was synced. */
  ghost predicate Backed(log: seq<Event>, n: nat, pid: Pid, d: Digest)
    requires n <= |log|
  {
    exists c :: 0 <= c < n && log[c] == Fenced(pid, d) && Reverified(log, c, pid, d)
  }

  lemma ApprovedStays(log: seq<Event>, more: seq<Event>, n: nat, k: nat, pid: Pid)
    requires log <= more && n <= |log| && n <= k <= |more| && Approved(log, n, pid)
    ensures Approved(more, k, pid)
  {
    var a :| 0 <= a < n && log[a] == Answered(pid);
    assert more[a] == log[a];
  }

  lemma ReverifiedStays(log: seq<Event>, more: seq<Event>, n: nat, k: nat, pid: Pid, d: Digest)
    requires log <= more && n <= |log| && n <= k <= |more| && Reverified(log, n, pid, d)
    ensures Reverified(more, k, pid, d)
  {
    var b :| 0 <= b < n && log[b] == Verified(pid, d) && Approved(log, b, pid);
    ApprovedStays(log, more, b, b, pid);
    assert more[b] == log[b];
  }

  lemma BackedStays(log: seq<Event>, more: seq<Event>, pid: Pid, d: Digest)
    requires log <= more && Backed(log, |log|, pid, d)
    ensures Backed(more, |more|, pid, d)
  {
    var c :| 0 <= c < |log| && log[c] == Fenced(pid, d) && Reverified(log, c, pid, d);
    ReverifiedStays(log, more, c, c, pid, d);
    assert more[c] == log[c];
  }

  predicate PastFence(phase: Phase) {
    AfterFence(phase) && !phase.Writing?
  }

  predicate Live(phase: Phase) {
    || phase.Guided? || phase.GuidedChecking? || phase.GuidedCheckingEnd? || phase.ReadingSetup?
    || phase.Rechecking? || phase.RecheckingEnd? || phase.Reviewing? || phase.ReviewingEnd? || phase.Asking?
    || phase.Confirmed? || phase.ConfirmedEnd? || phase.Fencing? || AfterFence(phase)
  }

  /** From the second verification to the synced fence. */
  predicate Checked(phase: Phase) {
    phase.ConfirmedEnd? || phase.Fencing? || phase.Writing?
  }

  /** What the history says about one process. */
  ghost predicate Vouched(log: seq<Event>, pid: Pid, p: Process) {
    && (p.prepareOnly ==> !Live(p.phase))
    && (p.phase.Confirmed? ==> Approved(log, |log|, pid))
    && (Checked(p.phase) ==> Reverified(log, |log|, pid, p.phase.digest))
    && (PastFence(p.phase) ==> Backed(log, |log|, pid, p.phase.digest))
  }

  lemma VouchedStays(log: seq<Event>, more: seq<Event>, pid: Pid, p: Process)
    requires log <= more && Vouched(log, pid, p)
    ensures Vouched(more, pid, p)
  {
    if p.phase.Confirmed? { ApprovedStays(log, more, |log|, |more|, pid); }
    if Checked(p.phase) { ReverifiedStays(log, more, |log|, |more|, pid, p.phase.digest); }
    if PastFence(p.phase) { BackedStays(log, more, pid, p.phase.digest); }
  }

  /** One more event of the process itself. */
  lemma VouchedEvent(log: seq<Event>, e: Event, pid: Pid, d: Digest)
    ensures e == Answered(pid) ==> Approved(log + [e], |log| + 1, pid)
    ensures e == Verified(pid, d) && Approved(log, |log|, pid) ==> Reverified(log + [e], |log| + 1, pid, d)
    ensures e == Fenced(pid, d) && Reverified(log, |log|, pid, d) ==> Backed(log + [e], |log| + 1, pid, d)
  {
    var more := log + [e];
    assert more[|log|] == e;
    if Approved(log, |log|, pid) { ApprovedStays(log, more, |log|, |log|, pid); }
    if Reverified(log, |log|, pid, d) { ReverifiedStays(log, more, |log|, |log|, pid, d); }
  }

  lemma VouchedNext(s: State, pid: Pid, answer: bool, rendered: Digest)
    requires pid in s.live && Vouched(s.log, pid, s.live[pid])
    ensures var p := s.live[pid];
      var next := After(s, p.phase, p.prepareOnly, answer, rendered);
      next.Some? ==> Vouched(s.log + Record(s, pid, p.phase, answer), pid, p.(phase := next.value))
  {
    hide Approved, Reverified, Backed;
    var p := s.live[pid];
    var log, r := s.log, Record(s, pid, p.phase, answer);
    VouchedStays(log, log + r, pid, p);
    if r != [] {
      var d := if p.phase.Confirmed? || p.phase.Writing? then p.phase.digest else 0;
      assert r == [r[0]];
      VouchedEvent(log, r[0], pid, d);
    }
  }

  ghost predicate AllVouched(s: State) {
    forall pid :: pid in s.live ==> Vouched(s.log, pid, s.live[pid])
  }

  lemma ActionVouches(s: State, a: Action)
    requires AllVouched(s)
    ensures AllVouched(Apply(s, a))
  {
    hide Vouched, Touch, After, Record;
    var t := Apply(s, a);
    match a
    case Spawn(prepareOnly) =>
      assert Vouched(t.log, s.issued, Process(Entering, prepareOnly)) by { NewVouched(t.log, s.issued, prepareOnly); }
    case Advance(pid, answer, rendered) =>
      if pid in s.live {
        VouchedNext(s, pid, answer, rendered);
        forall q | q in t.live && q != pid ensures Vouched(t.log, q, t.live[q]) { VouchedStays(s.log, t.log, q, s.live[q]); }
      }
    case _ =>
  }

  lemma NewVouched(log: seq<Event>, pid: Pid, prepareOnly: bool)
    ensures Vouched(log, pid, Process(Entering, prepareOnly))
  {
  }

  lemma {:induction false} RunVouches(s: State, actions: seq<Action>)
    requires AllVouched(s) && Feasible(s, actions)
    ensures AllVouched(Outcome(s, actions))
    decreases |actions|
  {
    if actions != [] {
      ActionVouches(s, actions[0]);
      RunVouches(Apply(s, actions[0]), actions[1..]);
    }
  }

  /** Whoever is about to enter the executor with digest d is not a prepare-only run, has the
      operator's ok, verified d again after it, and holds a fence with exactly d whose content and
      whose directory entries up to the `ok` directory are durable. */
  lemma StartIsBacked(s: State, actions: seq<Action>, pid: Pid)
    requires Initial(s) && Feasible(s, actions)
    requires pid in Outcome(s, actions).live && Outcome(s, actions).live[pid].phase.Starting?
    ensures var t := Outcome(s, actions);
      var d := t.live[pid].phase.digest;
      && !t.live[pid].prepareOnly
      && Backed(t.log, |t.log|, pid, d)
      && Fence in t.disk.visible && t.disk.visible[Fence] == Text(d)
      && Fence in t.disk.synced && {Fence, RunDir, RunsDir} <= t.disk.durable
  {
    InitialFence(s);
    RunKeeps(s, actions);
    RunVouches(s, actions);
  }
}
