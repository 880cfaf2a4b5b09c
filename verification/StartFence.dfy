/** Start fence of guided `ok up` for one cluster name: any number of processes share a directory of
    exclusively created files, any of them may crash at any call, and power may fail. Every access to
    one of these entries is a step of its own. Directory entries are visible at once but survive a
    power loss for sure only after the directory that holds them was synced. */
module StartFence {
  import opened Wrappers

  type Pid = nat
  type Digest = nat

  // ---- the directory tree ----

  datatype Entry =
    | OkDir                               // <user config>/ok
    | RunsDir                             // ok/runs
    | RunDir                              // ok/runs/<cluster>
    | Request                             // platform-preparation-request.json
    | Handoff                             // platform-handoff.json, put there by the platform operator
    | Claim                               // handoff-started.json
    | Managed                             // managed-preparation.json
    | Fence                               // execution-started.json
    | Terminal                            // executor-terminal

  datatype Data = Blank | Text(digest: Digest)

  predicate IsFile(e: Entry) {
    !e.OkDir? && !e.RunsDir? && !e.RunDir?
  }

  /** The directory that holds an entry; the user configuration directory itself always exists. */
  function Parent(e: Entry): Option<Entry> {
    match e
    case OkDir => None
    case RunsDir => Some(OkDir)
    case RunDir => Some(RunsDir)
    case _ => Some(RunDir)
  }

  datatype Disk = Disk(visible: map<Entry, Data>, durable: set<Entry>, synced: set<Entry>)

  ghost predicate Tree(entries: set<Entry>) {
    forall e :: e in entries && Parent(e).Some? ==> Parent(e).value in entries
  }

  ghost predicate Formed(d: Disk) {
    d.durable <= d.visible.Keys && Tree(d.visible.Keys)
  }

  /** O_CREAT|O_EXCL, or Mkdir; an entry that exists is left alone. */
  function Create(d: Disk, e: Entry): Disk {
    if e in d.visible then d else d.(visible := d.visible[e := Blank], synced := d.synced - {e})
  }

  /** Write and file Sync: the content is durable, the entry may not be. */
  function SyncText(d: Disk, e: Entry, text: Data): Disk {
    d.(visible := d.visible[e := text], synced := d.synced + {e})
  }

  /** Sync of a directory makes the entries it holds durable. */
  function SyncDir(d: Disk, dir: Entry): Disk {
    d.(durable := d.durable + set e | e in d.visible && Parent(e) == Some(dir))
  }

  /** What a power loss may leave: durable entries whose directory survives survive, others may. */
  ghost predicate Survives(d: Disk, kept: set<Entry>) {
    && kept <= d.visible.Keys && Tree(kept)
    && forall e :: e in d.durable && (Parent(e).Some? ==> Parent(e).value in kept) ==> e in kept
  }

  /** Contents that were never synced may be lost even where the entry survives. */
  function Remains(d: Disk, kept: set<Entry>, garbled: set<Entry>): Disk {
    Disk(map e | e in d.visible && e in kept :: if e in garbled && e !in d.synced then Blank else d.visible[e], kept, kept)
  }

  function Depth(e: Entry): nat {
    if e.OkDir? then 0 else if e.RunsDir? then 1 else if e.RunDir? then 2 else 3
  }

  /** Entries that survive any power loss: durable, like every directory above them. */
  predicate Rooted(d: Disk, e: Entry)
    decreases Depth(e)
  {
    e in d.durable && (Parent(e).Some? ==> Rooted(d, Parent(e).value))
  }

  // ---- processes ----

  datatype Phase =
    | Entering                            // runAutomaticClusterUp
    | NeedsOk
    | NeedsRuns
    | NeedsRoot
    | Rendering                           // this process reserved the run directory
    | WritingRequest
    | Checking                            // guidedUpNotStarted: the fence
    | CheckingEnd                         // and the terminal marker
    | Choosing
    | BesideManaged                       // a request beside the managed preparation must be readable
    | RereadingRequest
    | ReadingRequest
    | LookingForClaim
    | LookingForHandoff
    | ClaimingHandoff
    | WritingClaim
    | Finishing(digest: Digest)           // the runner handoff produced a manifest
    | WritingSetup(digest: Digest)
    | Completing
    | Guided                              // runGuidedClusterUpWithRuntime
    | GuidedChecking                      // guidedUpNotStarted
    | GuidedCheckingEnd
    | ReadingSetup
    | Rechecking(digest: Digest)          // guidedUpNotStarted again
    | RecheckingEnd(digest: Digest)
    | Reviewing(digest: Digest)           // the prepared manifest, then the terminal marker
    | ReviewingEnd(digest: Digest)
    | Asking(digest: Digest)
    | Confirmed(digest: Digest)           // both again
    | ConfirmedEnd(digest: Digest)
    | Fencing(digest: Digest)
    | Writing(digest: Digest)             // the fence exists, still empty
    | SyncingRoot(digest: Digest)
    | SyncingRuns(digest: Digest)
    | SyncingOk(digest: Digest)
    | Starting(digest: Digest)
    | Running(digest: Digest)

  datatype Process = Process(phase: Phase, prepareOnly: bool)

  datatype Event =
    | Claimed(pid: Pid)                   // platform handoff
    | Answered(pid: Pid)                  // the operator typed ok
    | Verified(pid: Pid, digest: Digest)  // prepared manifest found with this digest
    | Fenced(pid: Pid, digest: Digest)    // fence content synced
    | Started(pid: Pid, digest: Digest)   // live executor entered
    | PowerLost(anchored: bool, held: bool)  // anchored: the ok directory entry was durable; held: the claim was rooted

  datatype State = State(disk: Disk, live: map<Pid, Process>, manifest: Option<Digest>, issued: Pid, log: seq<Event>)

  datatype Action =
    | Spawn(prepareOnly: bool)
    | Advance(pid: Pid, answer: bool, rendered: Digest)
    | Stop(pid: Pid)                      // crash, interruption or any error return
    | Supply                              // the platform operator installs the handoff file
    | Alter(manifest: Option<Digest>)     // anyone changes the prepared manifest
    | LosePower(kept: set<Entry>, garbled: set<Entry>)

  /** One file access of a process: its next phase, or None when it returns an error. */
  function After(s: State, phase: Phase, prepareOnly: bool, answer: bool, rendered: Digest): Option<Phase> {
    var v := s.disk.visible;
    match phase
    case Entering => Some(if RunDir in v then Checking else NeedsOk)
    case NeedsOk => Some(NeedsRuns)
    case NeedsRuns => Some(NeedsRoot)
    case NeedsRoot => if RunDir in v then None else Some(Rendering)
    case Rendering => if Request in v then None else Some(WritingRequest)
    case WritingRequest => Some(Checking)
    case Checking => if Fence in v then None else Some(CheckingEnd)
    case CheckingEnd => if Terminal in v then None else Some(Choosing)
    case Choosing => Some(if Managed in v then BesideManaged else ReadingRequest)
    case BesideManaged => Some(if Request in v then RereadingRequest else Completing)
    case RereadingRequest => if Request in v && v[Request].Text? then Some(Completing) else None
    case ReadingRequest => if Request in v && v[Request].Text? then Some(LookingForClaim) else None
    case LookingForClaim => if Claim in v then None else Some(LookingForHandoff)
    case LookingForHandoff => if Handoff in v then Some(ClaimingHandoff) else None
    case ClaimingHandoff => if Claim in v then None else Some(WritingClaim)
    case WritingClaim => Some(Finishing(rendered))
    case Finishing(d) => if Managed in v then None else Some(WritingSetup(d))
    case WritingSetup(d) => Some(Completing)
    case Completing => if prepareOnly then None else Some(Guided)
    case Guided => if RunDir !in v then None else Some(GuidedChecking)
    case GuidedChecking => if Fence in v then None else Some(GuidedCheckingEnd)
    case GuidedCheckingEnd => if Terminal in v then None else Some(ReadingSetup)
    case ReadingSetup => if Managed in v && v[Managed].Text? then Some(Rechecking(v[Managed].digest)) else None
    case Rechecking(d) => if Fence in v then None else Some(RecheckingEnd(d))
    case RecheckingEnd(d) => if Terminal in v then None else Some(Reviewing(d))
    case Reviewing(d) => if s.manifest == Some(d) then Some(ReviewingEnd(d)) else None
    case ReviewingEnd(d) => if Terminal in v then None else Some(Asking(d))
    case Asking(d) => if answer then Some(Confirmed(d)) else None
    case Confirmed(d) => if s.manifest == Some(d) then Some(ConfirmedEnd(d)) else None
    case ConfirmedEnd(d) => if Terminal in v then None else Some(Fencing(d))
    case Fencing(d) => if Fence in v then None else Some(Writing(d))
    case Writing(d) => Some(SyncingRoot(d))
    case SyncingRoot(d) => Some(SyncingRuns(d))
    case SyncingRuns(d) => Some(SyncingOk(d))
    case SyncingOk(d) => Some(Starting(d))
    case Starting(d) => Some(Running(d))
    case Running(d) => None
  }

  /** What that access leaves on disk. */
  function Touch(d: Disk, phase: Phase): Disk {
    match phase
    case NeedsOk => Create(d, OkDir)
    case NeedsRuns => Create(d, RunsDir)
    case NeedsRoot => Create(d, RunDir)
    case Rendering => Create(d, Request)
    case WritingRequest => SyncText(d, Request, Text(0))
    case ClaimingHandoff => Create(d, Claim)
    case WritingClaim => SyncText(d, Claim, Text(0))
    case Finishing(digest) => Create(d, Managed)
    case WritingSetup(digest) => SyncText(d, Managed, Text(digest))
    case Fencing(digest) => Create(d, Fence)
    case Writing(digest) => SyncText(d, Fence, Text(digest))
    case SyncingRoot(digest) => SyncDir(d, RunDir)
    case SyncingRuns(digest) => SyncDir(d, RunsDir)
    case SyncingOk(digest) => SyncDir(d, OkDir)
    case Running(digest) => Create(d, Terminal)
    case _ => d
  }

  /** What it adds to the history. */
  function Record(s: State, pid: Pid, phase: Phase, answer: bool): seq<Event> {
    match phase
    case ClaimingHandoff => if Claim in s.disk.visible then [] else [Claimed(pid)]
    case Reviewing(d) => if s.manifest == Some(d) then [Verified(pid, d)] else []
    case Asking(d) => if answer then [Answered(pid)] else []
    case Confirmed(d) => if s.manifest == Some(d) then [Verified(pid, d)] else []
    case Writing(d) => [Fenced(pid, d)]
    case Starting(d) => [Started(pid, d)]
    case _ => []
  }

  function Loss(d: Disk): Event {
    PowerLost(OkDir in d.durable, Rooted(d, Claim))
  }

  /** A power loss that could take the `ok` entry. */
  predicate Unanchored(e: Event) {
    e.PowerLost? && !e.anchored
  }

  ghost predicate Enabled(s: State, a: Action) {
    match a
    case Advance(pid, _, _) => pid in s.live
    case Stop(pid) => pid in s.live
    case Supply => RunDir in s.disk.visible
    case LosePower(kept, _) => Survives(s.disk, kept)
    case _ => true
  }

  function Apply(s: State, a: Action): State {
    match a
    case Spawn(prepareOnly) => s.(live := s.live[s.issued := Process(Entering, prepareOnly)], issued := s.issued + 1)
    case Advance(pid, answer, rendered) =>
      if pid !in s.live then s else
      var p := s.live[pid];
      var next := After(s, p.phase, p.prepareOnly, answer, rendered);
      s.(disk := Touch(s.disk, p.phase),
         live := if next.Some? then s.live[pid := p.(phase := next.value)] else s.live - {pid},
         manifest := if p.phase.WritingClaim? then Some(rendered) else s.manifest,
         log := s.log + Record(s, pid, p.phase, answer))
    case Stop(pid) => s.(live := s.live - {pid})
    case Supply => s.(disk := Create(s.disk, Handoff))
    case Alter(manifest) => s.(manifest := manifest)
    case LosePower(kept, garbled) =>
      s.(disk := Remains(s.disk, kept, garbled), live := map[], log := s.log + [Loss(s.disk)])
  }

  /** A run of the whole system: each action is possible when it comes. */
  ghost predicate Feasible(s: State, actions: seq<Action>)
    decreases |actions|
  {
    actions == [] || (Enabled(s, actions[0]) && Feasible(Apply(s, actions[0]), actions[1..]))
  }

  function Outcome(s: State, actions: seq<Action>): State
    decreases |actions|
  {
    if actions == [] then s else Outcome(Apply(s, actions[0]), actions[1..])
  }

  /** Any disk, before any process of this model runs. */
  ghost predicate Initial(s: State) {
    Formed(s.disk) && s.live == map[] && s.log == []
  }

  // ---- invariant ----

  predicate AfterFence(phase: Phase) {
    phase.Writing? || phase.SyncingRoot? || phase.SyncingRuns? || phase.SyncingOk? || phase.Starting? || phase.Running?
  }

  /** Entered the executor, and no power loss that could take the tree has happened since. */
  predicate Outstanding(log: seq<Event>) {
    log != [] &&
    var last := log[|log|-1];
    last.Started? || (!Unanchored(last) && Outstanding(log[..|log|-1]))
  }

  /** The executor was never entered while an entry was outstanding. */
  ghost predicate StartsApart(log: seq<Event>) {
    forall n :: 0 <= n < |log| && log[n].Started? ==> !Outstanding(log[..n])
  }

  predicate InRunDir(phase: Phase) {
    !phase.Entering? && !phase.NeedsOk? && !phase.NeedsRuns? && !phase.NeedsRoot?
  }

  /** What a process in this phase can rely on. */
  ghost predicate Synced(d: Disk, phase: Phase) {
    && (phase.NeedsRuns? ==> OkDir in d.visible)
    && (phase.NeedsRoot? ==> RunsDir in d.visible)
    && (InRunDir(phase) ==> RunDir in d.visible)
    && (AfterFence(phase) ==> Fence in d.visible)
    && (phase.SyncingRoot? || phase.SyncingRuns? || phase.SyncingOk? || phase.Starting? ==>
          d.visible[Fence] == Text(phase.digest) && Fence in d.synced)
    && (phase.SyncingRuns? || phase.SyncingOk? || phase.Starting? ==> Fence in d.durable)
    && (phase.SyncingOk? || phase.Starting? ==> RunDir in d.durable)
    && (phase.Starting? ==> RunsDir in d.durable)
  }

  ghost predicate FenceInv(s: State) {
    && Formed(s.disk)
    && (forall pid :: pid in s.live ==> pid < s.issued && Synced(s.disk, s.live[pid].phase))
    && (forall p, q :: p in s.live && q in s.live && AfterFence(s.live[p].phase) && AfterFence(s.live[q].phase) ==> p == q)
    && (Outstanding(s.log) ==>
          && Fence in s.disk.visible
          && (forall pid :: pid in s.live && AfterFence(s.live[pid].phase) ==> s.live[pid].phase.Running?)
          && (OkDir in s.disk.durable ==> RunsDir in s.disk.durable && RunDir in s.disk.durable && Fence in s.disk.durable))
    && StartsApart(s.log)
  }

  /** Disk changes that other processes' knowledge survives: nothing vanishes, synced text stays. */
  ghost predicate Grows(d: Disk, e: Disk) {
    && d.visible.Keys <= e.visible.Keys && d.durable <= e.durable
    && (Fence in d.synced && Fence in d.visible ==> Fence in e.synced && e.visible[Fence] == d.visible[Fence])
  }

  lemma SyncedGrows(d: Disk, e: Disk, phase: Phase)
    requires Grows(d, e) && Synced(d, phase)
    ensures Synced(e, phase)
  {
  }

  lemma TouchForms(s: State, phase: Phase)
    requires Formed(s.disk) && Synced(s.disk, phase)
    ensures Formed(Touch(s.disk, phase))
    ensures phase.Writing? || Grows(s.disk, Touch(s.disk, phase))
    ensures OkDir in Touch(s.disk, phase).durable <==> OkDir in s.disk.durable
  {
  }

  /** No process removes an entry, and none syncs the user configuration directory. */
  lemma TouchGrows(d: Disk, phase: Phase)
    ensures d.visible.Keys <= Touch(d, phase).visible.Keys && d.durable <= Touch(d, phase).durable
    ensures OkDir in Touch(d, phase).durable <==> OkDir in d.durable
  {
  }

  /** Up to the fence: the directories a process has seen or made stay. */
  lemma EarlySynced(s: State, phase: Phase, prepareOnly: bool, answer: bool, rendered: Digest)
    requires Formed(s.disk) && Synced(s.disk, phase) && !phase.Fencing? && !AfterFence(phase)
    ensures var next := After(s, phase, prepareOnly, answer, rendered);
      next.Some? ==> !AfterFence(next.value) && Synced(Touch(s.disk, phase), next.value)
  {
    hide SyncDir, Formed, Record;
    if InRunDir(phase) {
      InsideSynced(s, phase, prepareOnly, answer, rendered);
    } else {
      assert phase.Entering? || phase.NeedsOk? || phase.NeedsRuns? || phase.NeedsRoot?;
    }
  }

  /** Inside the run directory nothing more is needed until the fence. */
  lemma InsideSynced(s: State, phase: Phase, prepareOnly: bool, answer: bool, rendered: Digest)
    requires Synced(s.disk, phase) && InRunDir(phase) && !phase.Fencing? && !AfterFence(phase)
    ensures var next := After(s, phase, prepareOnly, answer, rendered);
      next.Some? ==> !AfterFence(next.value) && Synced(Touch(s.disk, phase), next.value)
  {
    hide Touch, After;
    TouchGrows(s.disk, phase);
    StaysInside(s, phase, prepareOnly, answer, rendered);
  }

  lemma StaysInside(s: State, phase: Phase, prepareOnly: bool, answer: bool, rendered: Digest)
    requires InRunDir(phase) && !phase.Fencing? && !AfterFence(phase)
    ensures var next := After(s, phase, prepareOnly, answer, rendered);
      next.Some? ==> InRunDir(next.value) && !AfterFence(next.value)
  {
  }

  /** From the fence on: each sync adds what the next phase relies on. */
  lemma LateSynced(s: State, phase: Phase, prepareOnly: bool, answer: bool, rendered: Digest)
    requires Formed(s.disk) && Synced(s.disk, phase) && (phase.Fencing? || AfterFence(phase))
    ensures var next := After(s, phase, prepareOnly, answer, rendered);
      next.Some? ==> Synced(Touch(s.disk, phase), next.value)
  {
    match phase
    case Fencing(d) =>
    case Writing(d) =>
    case SyncingRoot(d) =>
    case SyncingRuns(d) =>
    case SyncingOk(d) =>
    case _ =>
  }

  lemma NextSynced(s: State, phase: Phase, prepareOnly: bool, answer: bool, rendered: Digest)
    requires Formed(s.disk) && Synced(s.disk, phase)
    ensures var next := After(s, phase, prepareOnly, answer, rendered);
      next.Some? ==> Synced(Touch(s.disk, phase), next.value)
  {
    hide Synced, After, Touch, Formed;
    if phase.Fencing? || AfterFence(phase) {
      LateSynced(s, phase, prepareOnly, answer, rendered);
    } else {
      EarlySynced(s, phase, prepareOnly, answer, rendered);
    }
  }

  lemma OutstandingAfter(log: seq<Event>, e: Event)
    ensures Outstanding(log + [e]) == (e.Started? || (!Unanchored(e) && Outstanding(log)))
  {
    assert (log + [e])[..|log|] == log;
  }

  lemma StartsApartAfter(log: seq<Event>, e: Event)
    requires StartsApart(log) && (e.Started? ==> !Outstanding(log))
    ensures StartsApart(log + [e])
  {
    forall n | 0 <= n <= |log| && (log + [e])[n].Started? ensures !Outstanding((log + [e])[..n]) {
      assert (log + [e])[..n] == log[..n];
      assert n == |log| ==> log[..n] == log;
    }
  }

  /** The history after one file access. */
  lemma RecordKeeps(s: State, pid: Pid, phase: Phase, answer: bool)
    requires StartsApart(s.log) && (phase.Starting? ==> !Outstanding(s.log))
    ensures StartsApart(s.log + Record(s, pid, phase, answer))
    ensures Outstanding(s.log + Record(s, pid, phase, answer)) == (phase.Starting? || Outstanding(s.log))
  {
    var r := Record(s, pid, phase, answer);
    if r == [] {
      assert s.log + r == s.log;
    } else {
      OutstandingAfter(s.log, r[0]);
      StartsApartAfter(s.log, r[0]);
      assert s.log + r == s.log + [r[0]];
    }
  }

  /** Only a process that found no fence gets past it, and only the last sync leads to a start. */
  lemma NextFence(s: State, phase: Phase, prepareOnly: bool, answer: bool, rendered: Digest)
    ensures var next := After(s, phase, prepareOnly, answer, rendered);
      next.Some? && AfterFence(next.value) ==>
        && (AfterFence(phase) || (phase.Fencing? && Fence !in s.disk.visible))
        && (next.value.Running? <==> phase.Starting?)
    ensures AfterFence(phase) && !phase.Running? ==> After(s, phase, prepareOnly, answer, rendered).Some?
    ensures phase.Running? ==> After(s, phase, prepareOnly, answer, rendered).None?
  {
    hide Touch;
  }

  lemma AdvanceKeeps(s: State, pid: Pid, answer: bool, rendered: Digest)
    requires FenceInv(s) && pid in s.live
    ensures FenceInv(Apply(s, Advance(pid, answer, rendered)))
  {
    hide Outstanding, StartsApart, Record, Formed, Grows, Touch, After;
    var p := s.live[pid];
    var t := Apply(s, Advance(pid, answer, rendered));
    TouchForms(s, p.phase);
    NextSynced(s, p.phase, p.prepareOnly, answer, rendered);
    NextFence(s, p.phase, p.prepareOnly, answer, rendered);
    TouchGrows(s.disk, p.phase);
    RecordKeeps(s, pid, p.phase, answer);
    forall q | q in t.live ensures q < t.issued && Synced(t.disk, t.live[q].phase) {
      if q != pid {
        if p.phase.Writing? { OthersSynced(s, q, p.phase); }
        else { SyncedGrows(s.disk, t.disk, s.live[q].phase); }
      }
    }
  }

  lemma OthersSynced(s: State, q: Pid, phase: Phase)
    requires FenceInv(s) && q in s.live && phase.Writing? && !AfterFence(s.live[q].phase)
    ensures Synced(Touch(s.disk, phase), s.live[q].phase)
  {
  }

  lemma PowerLossKeeps(s: State, kept: set<Entry>, garbled: set<Entry>)
    requires FenceInv(s) && Survives(s.disk, kept)
    ensures FenceInv(Apply(s, LosePower(kept, garbled)))
  {
    hide StartsApart;
    OutstandingAfter(s.log, Loss(s.disk));
    StartsApartAfter(s.log, Loss(s.disk));
    assert Remains(s.disk, kept, garbled).visible.Keys == kept;
  }

  lemma SupplyKeeps(s: State)
    requires FenceInv(s) && RunDir in s.disk.visible
    ensures FenceInv(Apply(s, Supply))
  {
    hide StartsApart, Outstanding;
    var t := Apply(s, Supply);
    forall pid | pid in t.live ensures Synced(t.disk, t.live[pid].phase) { SyncedGrows(s.disk, t.disk, s.live[pid].phase); }
  }

  lemma ActionKeeps(s: State, a: Action)
    requires FenceInv(s) && Enabled(s, a)
    ensures FenceInv(Apply(s, a))
  {
    match a
    case Advance(pid, answer, rendered) => AdvanceKeeps(s, pid, answer, rendered);
    case LosePower(kept, garbled) => PowerLossKeeps(s, kept, garbled);
    case Supply => SupplyKeeps(s);
    case _ =>
  }

  lemma {:induction false} RunKeeps(s: State, actions: seq<Action>)
    requires FenceInv(s) && Feasible(s, actions)
    ensures FenceInv(Outcome(s, actions))
    decreases |actions|
  {
    if actions != [] {
      ActionKeeps(s, actions[0]);
      RunKeeps(Apply(s, actions[0]), actions[1..]);
    }
  }

  // ---- at most one start ----

  lemma {:induction false} OutstandingUntilLoss(log: seq<Event>, i: nat, n: nat)
    requires i < n <= |log| && log[i].Started?
    requires forall k :: i < k < n ==> !Unanchored(log[k])
    ensures Outstanding(log[..n])
  {
    assert log[..n][..n-1] == log[..n-1];
    if i < n - 1 { OutstandingUntilLoss(log, i, n - 1); }
  }

  lemma InitialFence(s: State)
    requires Initial(s)
    ensures FenceInv(s)
  {
  }

  /** Two starts are separated by a power loss that hit while the `ok` entry was not durable. */
  lemma StartsAreApart(s: State, actions: seq<Action>, i: nat, j: nat)
    requires Initial(s) && Feasible(s, actions)
    requires var log := Outcome(s, actions).log; i < j < |log| && log[i].Started? && log[j].Started?
    ensures var log := Outcome(s, actions).log; exists k :: i < k < j && Unanchored(log[k])
  {
    InitialFence(s);
    RunKeeps(s, actions);
    var log := Outcome(s, actions).log;
    if forall k :: i < k < j ==> !Unanchored(log[k]) {
      OutstandingUntilLoss(log, i, j);
      assert false;
    }
  }

  ghost predicate Anchored(log: seq<Event>) {
    forall k :: 0 <= k < |log| ==> !Unanchored(log[k])
  }

  ghost predicate AtMostOneStart(log: seq<Event>) {
    forall i, j :: 0 <= i < j < |log| ==> !(log[i].Started? && log[j].Started?)
  }

  lemma {:induction false} AnchoredRun(s: State, actions: seq<Action>)
    requires FenceInv(s) && Feasible(s, actions) && OkDir in s.disk.durable && Anchored(s.log)
    ensures Anchored(Outcome(s, actions).log)
    decreases |actions|
  {
    if actions != [] {
      var a := actions[0];
      ActionKeeps(s, a);
      assert OkDir in Apply(s, a).disk.durable && Anchored(Apply(s, a).log) by {
        hide FenceInv;
        AnchorStays(s, a);
      }
      AnchoredRun(Apply(s, a), actions[1..]);
    }
  }

  lemma AnchorStays(s: State, a: Action)
    requires Enabled(s, a) && OkDir in s.disk.durable && Anchored(s.log)
    ensures OkDir in Apply(s, a).disk.durable && Anchored(Apply(s, a).log)
  {
  }

  lemma UnpoweredRun(s: State, actions: seq<Action>)
    requires Feasible(s, actions) && Anchored(s.log)
    requires forall a :: a in actions ==> !a.LosePower?
    ensures Anchored(Outcome(s, actions).log)
    decreases |actions|
  {
    if actions != [] { UnpoweredRun(Apply(s, actions[0]), actions[1..]); }
  }

  lemma NoLossOneStart(s: State, actions: seq<Action>)
    requires Initial(s) && Feasible(s, actions) && Anchored(Outcome(s, actions).log)
    ensures AtMostOneStart(Outcome(s, actions).log)
  {
    var log := Outcome(s, actions).log;
    forall i, j | 0 <= i < j < |log| && log[i].Started? && log[j].Started? ensures false {
      StartsAreApart(s, actions, i, j);
    }
  }

  /** However many processes run and crash, without a power loss the executor is entered once at most. */
  lemma CrashesStartOnce(s: State, actions: seq<Action>)
    requires Initial(s) && Feasible(s, actions) && forall a :: a in actions ==> !a.LosePower?
    ensures AtMostOneStart(Outcome(s, actions).log)
  {
    UnpoweredRun(s, actions);
    NoLossOneStart(s, actions);
  }
}
