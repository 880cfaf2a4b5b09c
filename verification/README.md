# Verified model of the OpenKubes cluster lifecycle

This project models, in Dafny, the parts of the OpenKubes cluster tooling whose correctness spans
several functions, several processes or a whole run, and proves what they are meant to guarantee.

**Teardown of Talos clusters.** `Kubernetes` is one or two API planes as a value: live objects with
UIDs and versions, fresh identities, and the history of what the tool wrote, deleted and observed.
`Protocol` says when an event of that history is justified by the events before it, and what the moves
of a world keep; `Steps` gives every atomic step of any actor and proves by induction that every world of
every interleaving satisfies the invariant. `ApiServer` is the server the tool talks to: before each call
other runs and other actors may take any finite number of such steps (`foreign`), each call may fail with or
without effect (`faulty`), and a crashed run is one whose remaining calls all fail. The server carries the
run so far, from before the tool was first used, as a ghost trace of those steps; every call only extends
it. `Lifecycle`, `Phases`, `Cleanup`, `Opening`, `Teardown` and `LedgerAdmin` are the tool itself, statement by
statement, against that server. Their contracts have two halves: with other actors, every effect is an
allowed step of the trace and a justified move of the world; without them, runs converge. `History` draws
the consequences for whole traces, and `Teardown`, `MigrateLedger` and `PruneLedger` state them again for the
world they return in.

**Guided `ok up`.** `StartFence` is a state machine with one step per access to an entry of the run directory
(or to the prepared manifest), over processes that share that directory of exclusively created files;
directory entries are visible at once and survive a power loss for sure only once their directory was synced.
`FenceEvidence`, `FenceLimits` and `HandoffClaim` hold the safety theorems; `FenceAlone` says exactly from
which disks one run alone gets to the executor. Two safety results are exact conditions rather than
unconditional guarantees: the entry of the `ok` directory in the user configuration directory is never
synced, so at most one start is guaranteed across power losses exactly when that entry is already durable,
and the marker of the platform handoff is never
made durable before the next stage, so the handoff is claimed at most once across power losses exactly when
no later run claims it at all. Without a power loss both hold unconditionally.

**Network proposals** (`Network`), **patches** (`Json`, `WorkerPatches`, `RegistryTrust`), **readiness by
counting** (`Counting`, `NodeReadiness`, `Replacement`), **the replacement timeline** (`Timeline`) and **profile
resolution** (`FlatcarResolver`, `TalosResolver`) are modelled the same way: methods with the loops of the
program, proved against specifications whose laws are stated separately. Replacement readiness has a third
exact condition: its phase table is keyed by volume name, so a ready verdict speaks for every boot volume
exactly when no two of them share a name.

Environment assumptions: receipts are edited only by the tool; identities in a receipt were issued before it
was written; UIDs are never reused and a version names one content; the UID of a plane's
kube-system namespace never changes and identifies the plane; a list or read is atomic; SHA-256 digests and
canonical JSON texts identify their contents. UID 0 stands for a missing UID.

## Model

| member | source | states |
|---|---|---|
| Steps.TraceMoves | scripts/talos_golden_lifecycle.py:2345-2435 | in every interleaving of any number of runs, crashes and foreign actors each world satisfies the invariant (justified history, receipts equal to the last write, observed absences still true) and any later world is a move of any earlier one |
| ApiServer.Api.Take | scripts/talos_golden_lifecycle.py:2345-2435 | whatever changes the world is one allowed step, appended to the run that led there, so every world of every run of the tool is a world of a trace |
| ApiServer.Api.Delete | scripts/talos_golden_lifecycle.py:2587-2629 | a delete takes effect only on the UID, and when checked the version, that was read; absence is reported only when recorded; without other actors only the object and, for a namespace, its contents can go |
| ApiServer.Api.PutReceipt | scripts/talos_golden_lifecycle.py:2345-2400 | create or version-checked patch: a write that takes effect replaces exactly the text that was read, any other leaves the receipt alone |
| ApiServer.MatchedText | scripts/talos_golden_lifecycle.py:2372-2400 | a patch accepted at the version that was read replaces exactly the text that was read, whatever happened in between |
| ApiServer.OneWriterWins | scripts/talos_golden_lifecycle.py:2372-2400 | a write makes every other copy of the receipt stale for good, so of concurrent operators one goes on |
| ProtocolLemmas.LogOkAppend | scripts/talos_golden_lifecycle.py:2421-2435 | a justified event keeps every earlier justification: facts about the history only accumulate |
| ProtocolLemmas.SeenGoneIsGone | scripts/talos_golden_lifecycle.py:2438-2449 | an observed absence means the UID never names an object again |
| Lifecycle.BoundResource | scripts/talos_golden_lifecycle.py:2438-2449 | a bound read returns the object with the recorded UID, or a recorded absence, or an error; either way the history shows what was read |
| Lifecycle.PreconditionedDelete | scripts/talos_golden_lifecycle.py:2587-2642 | success means the object was then read absent; a recreated object or a failed read is an error, and a timeout means that it was read again more often than the poll bound; with no faults and an unchanged target it succeeds |
| Lifecycle.CollectVolumes | scripts/talos_golden_lifecycle.py:2497-2512 | every collected name was read in this call with policy Retain, or was saved and read absent; every other bound name was read with another policy; without other actors exactly the bound names whose PV is retained, plus the saved ones that are gone; an unknown missing one stops the run |
| Lifecycle.TeardownInventory | scripts/talos_golden_lifecycle.py:2452-2520 | the result contains every clone listed and, of the volumes bound by the claims listed after it, exactly those of CollectVolumes, and the namespace was read with the bound UID before and after, whatever others did |
| Lifecycle.TeardownStorageUids | scripts/talos_golden_lifecycle.py:2660-2684 | identities are added for exactly the new names, each of a volume that was read; a saved one is never rebound; during the call every name was looked at and found to have the returned identity, or absent, whatever others did |
| Lifecycle.WriteReceipt | scripts/talos_golden_lifecycle.py:2345-2418 | success means the labelled receipt was read back with exactly the written bytes; a version that does not match leaves it untouched |
| Lifecycle.PersistRecord | scripts/talos_golden_lifecycle.py:2421-2435 | only valid records are written, canonically and read back |
| Lifecycle.VerifyGolden | scripts/talos_golden_lifecycle.py:263-283 | evidence is the UID, digest and identity of a bound claim with the configured image |
| Phases.DeleteCluster | scripts/talos_golden_lifecycle.py:3323-3368 | gone only when read absent by the recorded UID; a same-named Cluster of another UID is left alone and reported |
| Phases.MergeInventory | scripts/talos_golden_lifecycle.py:3371-3392 | the merged record extends the old one by a complete inventory taken after the Cluster was seen gone; every volume it adds was read with policy Retain, and without other actors it adds exactly the retained bound ones |
| Phases.RefreshInventory | scripts/talos_golden_lifecycle.py:3371-3398 | on success the merged record is durable and is the one the run carries on; otherwise the receipt is the old one or exactly the merged one |
| Phases.DeleteSpaces | scripts/talos_golden_lifecycle.py:3400-3428 | nothing is deleted unless the Cluster is gone and the inventory durable or the namespace gone; absent means all three identities were seen gone |
| Cleanup.Sweep | scripts/talos_golden_lifecycle.py:2696-2718 | no failure means read absent after the generation was gone; a durable UID that does not match leaves the object alone |
| Cleanup.ShortIdentityIs | scripts/talos_golden_lifecycle.py:2818 | the grant label is the digest without its prefix, cut to twelve characters |
| Cleanup.CleanupVolume | scripts/talos_golden_lifecycle.py:2696-2750 | split planes: PV then Longhorn, both by their saved UIDs and both read absent; single plane: a Longhorn failure is no failure, but without faults its deletion took effect or it was found absent, and without other actors it is gone |
| Cleanup.CleanupRetainedVolumes | scripts/talos_golden_lifecycle.py:2687-2751 | no failures means every recorded volume was read absent after the generation was gone; on a single plane without faults every Longhorn volume was deleted or found absent; each undisturbed volume goes whatever becomes of the others |
| Cleanup.RevokeGrants | scripts/talos_golden_lifecycle.py:2779-2853 | both grants are read absent in the end; if either belongs to someone else nothing is deleted |
| Cleanup.SelectOwned | scripts/talos_golden_lifecycle.py:2867-2901 | selects exactly the snapshots of the record's DataVolumes, and only when every one of them has the expected source |
| Cleanup.RemoveSnapshots | scripts/talos_golden_lifecycle.py:2858-2941 | a final list without any owned snapshot; with an owned snapshot of another source nothing is deleted |
| Cleanup.CleanupAuthorization | scripts/talos_golden_lifecycle.py:2754-2952 | success means grants and owned snapshots were read absent and the Golden claim unchanged; a claim other than the recorded one leaves everything alone |
| Opening.ReadReceipt | scripts/talos_golden_lifecycle.py:2250-2342 | what is read back is a valid record this tool wrote before; a foreign or malformed ConfigMap is an error |
| Opening.DistinctPlanes | scripts/talos_golden_lifecycle.py:2955-2961 | two planes are told apart by the kube-system UIDs that were read live on each, and equal UIDs stop the run |
| Opening.Preflight | scripts/talos_golden_lifecycle.py:3133-3156 | passes only when the ledger namespace was read, the two kube-system UIDs were read and differ and, for an external provider, with an explicit provider kubeconfig; hands on the UIDs read |
| Opening.JudgeCompleted | scripts/talos_golden_lifecycle.py:3170-3201 | a completed receipt is torn down, superseded on a single plane once one of its identities can never be live again, or in conflict |
| Opening.BindRecord | scripts/talos_golden_lifecycle.py:3212-3229 | all live same-named objects have the recorded UIDs: each of the three was read with its UID or absent; an absent workload namespace was seen gone |
| Opening.DraftRecord | scripts/talos_golden_lifecycle.py:3230-3289 | a draft names identities that were never gone before, a complete first inventory whose volumes were each read with policy Retain (without other actors exactly the retained bound ones), current Golden evidence and storage identities that match |
| Opening.DraftFits | scripts/talos_golden_lifecycle.py:3230-3289 | in a world where nothing is spoilt the draft is a valid record that can be carried through |
| Teardown.Consent | scripts/talos_golden_lifecycle.py:3290-3295 | goes on only when confirmed and, for split planes, when during the call every volume and Longhorn volume was read with its saved UID or absent |
| Teardown.Rebind | scripts/talos_golden_lifecycle.py:3296-3318 | Cluster, namespace and provider namespace were each read live with the drafted UID right before they are recorded, whatever others did |
| Teardown.BeginRecord | scripts/talos_golden_lifecycle.py:3290-3321 | provenance becomes durable before any deletion, over no receipt or over exactly the completed one it supersedes, and only after its three identities were read live and its storage looked at in this call |
| Teardown.Choose | scripts/talos_golden_lifecycle.py:3127-3210 | decides done, begin or resume from reads alone, without a mutating request |
| Teardown.Open | scripts/talos_golden_lifecycle.py:3127-3321 | hands on a durable confirmed record whose identities and split-plane storage were each read with the recorded UID, or absent, in this call, and whose configuration matches; a finished generation is left without any request |
| Teardown.RecordFitsStays | scripts/talos_golden_lifecycle.py:3127-3461 | progress of a run keeps a record carryable, from any point to any later point |
| Teardown.RefreshedFits | scripts/talos_golden_lifecycle.py:3371-3398 | a refreshed record can be carried through wherever the record it extends could |
| Teardown.Drain | scripts/talos_golden_lifecycle.py:3323-3398 | Cluster, then refresh while the namespace is there; no failures only when both went through |
| Teardown.Clear | scripts/talos_golden_lifecycle.py:3400-3446 | namespaces, then storage and clone cleanup only after all identities were seen gone |
| Teardown.Complete | scripts/talos_golden_lifecycle.py:3448-3455 | the completion marker needs everything swept and is written under the last version |
| Teardown.RunPhases | scripts/talos_golden_lifecycle.py:3323-3461 | success means a completed record that extends the one it started from; in a calm world every outcome is resumable, without faults it succeeds, and no recorded PV is left, nor without faults any Longhorn volume of theirs |
| Teardown.Teardown | scripts/talos_golden_lifecycle.py:3127-3461 | success means a completed record of these planes in the history, which at the returned world attests all of CompletionSound unless it was migrated; every object gone since the call was removed by another actor or hangs on a recorded UID or name; where this call did the work without other actors no recorded PV is left and without faults no Longhorn volume; convergent worlds stay convergent under any crash, an unfaulted run finishes, a finished generation gets no mutating request; local files go only after success on a single plane without preserve |
| Teardown.RetryConverges | scripts/talos_golden_lifecycle.py:3127-3461 | from any reachable convergent world, after any number of runs cut short at any call, one run left alone completes and the next sends nothing, also when a success already removed the local files; no PV or Longhorn volume of the record is left unless a run cut short had already completed it (a Longhorn failure there was only a warning) |
| Teardown.SmallestStarts | scripts/talos_golden_lifecycle.py:3230-3289 | the worlds convergence speaks about exist: a Cluster in its namespace and the ledger namespace suffice |
| Teardown.SplitStarts | scripts/talos_golden_lifecycle.py:3230-3289 | so do they with two planes: every Golden image, with a clone, its grants, a snapshot and a retained volume, gives one |
| LedgerAdmin.MigrateLedger | scripts/talos_golden_lifecycle.py:2989-3067 | without other writers the exact legacy bytes are in at least one receipt after every crash; differing bytes leave both untouched; done once it is a no-op |
| LedgerAdmin.MoveReceipt | scripts/talos_golden_lifecycle.py:3035-3062 | copy, byte-equal read-back, and only then the version-checked delete of the legacy receipt |
| LedgerAdmin.PruneLedger | scripts/talos_golden_lifecycle.py:3070-3124 | only a completed single-plane receipt with Cluster and Namespace absent is deleted, under the version that was read; at the returned world both identities are gone and the completion is attested unless it was migrated; anything else sends nothing |
| History.EventHappened | scripts/talos_golden_lifecycle.py:3127-3461 | every event of a history was performed by a step of the run, in order |
| History.LookHappened | scripts/talos_golden_lifecycle.py:2438-2449 | an identity that was looked at was the live one, or absent, at a world of the run since then |
| History.HeldBetween | scripts/talos_golden_lifecycle.py:2452-2520 | an object read under the same UID before and after was there all along |
| History.UidSafety | scripts/talos_golden_lifecycle.py:3296-3321 | whatever Cluster, namespace or volume object a step of the tool removes hangs on a UID or name a durable record named before |
| History.RemovalsAccounted | scripts/talos_golden_lifecycle.py:3296-3321 | between any two worlds of any run, every Cluster, namespace, volume or namespace content that is gone went at a step of another actor or hanging on a recorded UID or name |
| History.ToolKeepsShared | scripts/talos_golden_lifecycle.py:2942-2944 | no step of the tool touches a Golden claim, the ledger namespace or kube-system |
| History.RefreshAfterCluster | scripts/talos_golden_lifecycle.py:3371-3398 | a refreshed record was written after its Cluster was seen gone and contains an inventory taken after that |
| History.DeletionOrder | scripts/talos_golden_lifecycle.py:3356-3446 | the order of deletions in every history: Cluster, durable refreshed inventory, provider namespace, management namespace, then storage, grants and snapshots |
| History.NamespaceAfterCluster | scripts/talos_golden_lifecycle.py:3400-3428 | once a namespace delete was sent, the Cluster of its record is gone in every later world |
| History.LedgerHistory | scripts/talos_golden_lifecycle.py:2345-2435 | between any two points of any history the receipt is only extended: same generation, growing inventories, no rebound UID, completion kept, unless the generation was left |
| History.ExitIsCompleted | scripts/talos_golden_lifecycle.py:3170-3201 | a generation is left only from a completed single-plane record, by supersession or prune |
| History.SplitRecordsStay | scripts/talos_golden_lifecycle.py:3187-3196 | a split-plane record is never left, only extended |
| History.ReceiptsExtend | scripts/talos_golden_lifecycle.py:2345-2435 | the receipts stored in any two worlds of a run are related the same way |
| History.CompletionSound | scripts/talos_golden_lifecycle.py:3429-3455 | once completion is written every identity is gone for good, every volume was read absent after that (Longhorn for split planes), and Golden grants and snapshots were absent with the claim unchanged |
| History.RecordedCompletion | scripts/talos_golden_lifecycle.py:3429-3455 | a record on file as completed was completed at a step of the run, with all of that up to its last world |
| History.InventoryBeforeNamespace | scripts/talos_golden_lifecycle.py:3371-3428 | before the workload namespace goes, it was surveyed while it held the recorded UID throughout and its Cluster was gone: every volume then bound is in the durable record or was seen not to be retained |
| History.RetainedVolumesEnd | scripts/talos_golden_lifecycle.py:2696-2718 | such a volume was read absent before that generation can be completed, so none is orphaned |
| History.WrittenVolumesRetained | scripts/talos_golden_lifecycle.py:2511-2512 | every volume a written record names was read with policy Retain before that write, or came with a migrated receipt |
| History.DeletedWasRetained | scripts/talos_golden_lifecycle.py:2696-2745 | a PV the tool deletes, or whose Longhorn volume it deletes, had policy Retain at an earlier world of the run, or came with a migrated receipt |
| StartFence.RunKeeps | cmd/ok/cluster_up_guided.go:171-256 | the fence invariant holds after any actions of any processes, crashes and power losses |
| StartFence.StartsAreApart | cmd/ok/cluster_up_guided.go:171-256 | two entries into the live executor are separated by a power loss that hit while the `ok` entry was not durable |
| StartFence.CrashesStartOnce | cmd/ok/cluster_up_guided.go:222-256 | without a power loss the executor is entered at most once, whatever runs and crashes |
| FenceLimits.StartOnceExactly | cmd/ok/cluster_up_guided.go:228-245 | at most once over all runs with power losses exactly when the `ok` entry is durable from the start |
| FenceLimits.TwoStarts | cmd/ok/cluster_up_guided.go:228-245 | otherwise a concrete run enters the executor twice |
| FenceEvidence.StartIsBacked | cmd/ok/cluster_up_guided.go:198-245 | who starts is no prepare-only run, has the operator's ok, verified the digest again after it, and holds a fence with exactly that digest, its content and entries synced |
| FenceAlone.EntersExactly | cmd/ok/cluster_up_automatic.go:165-291 | one run alone with the operator's ok enters the executor exactly when neither fence nor terminal marker is there and it resumes a managed preparation of the present manifest, with any request beside it readable, or continues a readable request with an unclaimed answer; the digest is that one |
| FenceAlone.PreparesExactly | cmd/ok/cluster_up_automatic.go:165-291 | a prepare-only run alone completes its preparation from exactly the disks without marker that hold a managed preparation or such a request |
| HandoffClaim.ClaimsAreApart | cmd/ok/cluster_up_automatic.go:227-276 | two claims of the platform handoff are separated by a power loss that hit while the claim entry, or a directory above it, was not durable |
| HandoffClaim.ChainIsNotEnough | cmd/ok/cluster_up_automatic.go:165-276 | a durable run directory does not bound the claims: with a readable request and no durable blocking entry some run claims twice |
| HandoffClaim.CrashesClaimOnce | cmd/ok/cluster_up_automatic.go:227-276 | without a power loss the handoff is claimed at most once |
| HandoffClaim.ClaimOnceExactly | cmd/ok/cluster_up_automatic.go:227-294 | with power losses at most once exactly when a blocking entry, or the absence of a readable request, is already permanent, and then not at all |
| Network.PickSubnet | render.py:170-177 | the lowest subnet of the pool of which no address is occupied, in a range or in a network, or proof that every subnet has such an address |
| Network.ClearMeans | render.py:170-177 | the interval tests hold exactly when no address of the subnet is occupied, in an endpoint range or in an occupied network |
| Network.SubnetsPartition | render.py:170-171 | the candidate subnets are pairwise apart and make up the whole pool |
| Network.PickEndpoint | render.py:180-187 | the least free address of the whole union of ranges, even where they overlap |
| Network.SpecialExactly | render.py:184-186 | the excluded addresses are, octet by octet, 127/8, 224/4, 0.0.0.0, 169.254/16 and 255.255.255.255 |
| Network.SuggestNetwork | render.py:155-187 | the componentwise least valid triple; address by address, the CIDRs share nothing with each other or with anything known and the endpoint is a configured free address; on acceptable ranges it fails only when a whole pool or every configured address is taken, and the per-range bound never fires |
| Network.LeastIsFirst | render.py:180-187 | the first free address met in start order is the least of the union |
| Network.ProposalAccepted | cmd/ok/cluster_intent.go:138-150 | every proposal passes the intent validator and the renderer's re-check |
| Network.ExcludeBuggy | scripts/suggest_cluster_network.py:278-282 | adds exactly the addresses of the ranges that end in 0 or 255 |
| Network.BuggyKeepsCidrs | scripts/suggest_cluster_network.py:278-286 | these exclusions change neither CIDR and only move the endpoint up |
| Network.AddressRanges | scripts/suggest_cluster_network.py:48-65 | accepts exactly usable values within the total bound, and then yields ranges the allocator accepts |
| Json.TwoStepDecodes | render.py:376-379 | replacing "~1" and then "~0" equals the single pass of RFC 6901 section 4 on valid tokens |
| Json.SegmentsResolve | render.py:367-379 | the checker reads every valid pointer as the patch engine does |
| Json.PointerRoundTrip | render.py:367-379 | every path has a pointer that resolves back to it |
| Json.PerformElsewhere | render.py:382-384 | an RFC 6902 operation whose pointers do not overlap a named path leaves the subtree there unchanged |
| Json.PerformsExactly | render.py:382-384 | on pointers that name members each operation of RFC 6902 succeeds exactly when its section permits it |
| Json.PerformedThere | render.py:382-384 | and then its value, copy or absence is what stands at the target |
| Json.MergeElsewhere | render.py:387-405 | so does a deep merge whose leaf paths do not overlap it, for every policy on lists and scalars |
| WorkerPatches.Validate | render.py:408-495 | accepts exactly templates that end in the two expected patches and whose other patches are clear of both fields, and names what it found otherwise |
| WorkerPatches.AcceptedExactly | render.py:444-495 | with pointers of RFC 6901 a template passes exactly when every pointer is apart from both fields and no strategic patch sets something at, above or below them |
| WorkerPatches.EarlierPatchesApart | render.py:444-469 | accepted earlier patches, applied in order, leave both owned subtrees exactly as they were |
| WorkerPatches.StrategicPatchesApart | render.py:471-495 | accepted strategic patches leave them alone too, for every policy on lists and scalars |
| WorkerPatches.OwnedFieldsHold | render.py:444-495 | with an accepted template both owned fields end exactly at their values |
| WorkerPatches.OptInHolds | render.py:360-364 | the same for the two fields the opt-in owns |
| RegistryTrust.RuntimeOps | scripts/talos_registry_trust.py:376-421 | the loop computes the upsert of the owned values, or refuses |
| RegistryTrust.UpsertPairs | scripts/talos_registry_trust.py:400-411 | the aliases afterwards, each with all other fields of its entry, are the old ones without the host, in order, and then exactly the new one |
| RegistryTrust.SetBeside | scripts/talos_registry_trust.py:384-398 | other registries and other TLS fields are unchanged |
| RegistryTrust.UpsertExactly | scripts/talos_registry_trust.py:384-411 | the upsert is refused exactly when something other than a mapping is on the way to the CA or a host entry is no mapping with a list of aliases |
| RegistryTrust.UpsertApplies | scripts/talos_registry_trust.py:443-461 | the result always passes the read-back check |
| RegistryTrust.AppliesExactly | scripts/talos_registry_trust.py:413-421 | the two operations apply to the configuration they were computed from exactly when it has a network mapping |
| RegistryTrust.LastUpsertWins | scripts/talos_registry_trust.py:376-421 | a second upsert for the host equals doing only the second |
| RegistryTrust.UpsertIdempotent | scripts/talos_registry_trust.py:376-421 | repeating an upsert changes nothing |
| RegistryTrust.NodeConverges | scripts/talos_registry_trust.py:413-461 | a node that took the operations passes the check, and operations computed for it again are those of the original |
| RegistryTrust.UpsertPatches | scripts/talos_registry_trust.py:184-230 | refuses exactly lists with an item below an owned path, or at one without setting it to a value of its kind, or where the upsert of the last values set there is refused; otherwise the result is the items at neither owned path, in order, and then the two operations of that upsert |
| RegistryTrust.ComposeLaws | scripts/talos_registry_trust.py:184-230 | the items at neither owned path keep content and order; composing again equals composing the original |
| NodeReadiness.ExpectedNodes | scripts/talos_golden_lifecycle.py:884-993 | ready exactly when every role has its number of active Machines, all references differ and each names a live Ready Node; per role registered and ready count exactly the newly claimed live and ready Nodes, and the counts add up |
| NodeReadiness.EvaluateRole | scripts/talos_golden_lifecycle.py:899-970 | one role after others: nodes claimed before do not count again, registered plus missing is active, ready plus not ready is registered |
| NodeReadiness.ActiveExactly | scripts/talos_golden_lifecycle.py:899-926 | the Machines that count for a role are those listed with labels, not excluded, and labelled for the control plane or else for that deployment |
| NodeReadiness.ExcludedIrrelevant | scripts/talos_golden_lifecycle.py:916-926 | deleting, failed, malformed or unlabelled Machines never matter to the verdict |
| NodeReadiness.MachineOrderIrrelevant | scripts/talos_golden_lifecycle.py:884-993 | the verdict ignores the order of Machines |
| NodeReadiness.NodeOrderExactly | scripts/talos_golden_lifecycle.py:888-893 | it ignores the order of Nodes for a name exactly when all live Nodes of that name agree |
| NodeReadiness.NodeOrderIrrelevant | scripts/talos_golden_lifecycle.py:888-893 | with agreeing Nodes the whole verdict ignores their order |
| Replacement.ReadyMatches | scripts/talos_golden_lifecycle.py:1693-1801 | ready means each template has exactly its machines, and machines, VirtualMachines and boot volumes of the Golden source match one to one |
| Replacement.RaisesExactly | scripts/talos_golden_lifecycle.py:1714-1781 | it raises exactly on too many machines of a template, two VirtualMachines of a machine, two volumes of a VirtualMachine, or a boot volume that failed or has another source |
| Replacement.RaisesWhat | scripts/talos_golden_lifecycle.py:1714-1781 | and what it raises names a trouble that is there |
| Replacement.MatchedIsReady | scripts/talos_golden_lifecycle.py:1693-1801 | matching layers with unfailed volumes are ready as soon as the phase table is |
| Replacement.SucceededExactly | scripts/talos_golden_lifecycle.py:1782-1801 | ready vouches for every boot volume, whatever the phases, exactly when no two share a name |
| Replacement.HiddenPhase | scripts/talos_golden_lifecycle.py:1782-1801 | otherwise an unfinished volume is hidden and the verdict is still ready |
| Timeline.Watch | scripts/talos_replacement_runtime.py:297-366 | the loop keeps exactly the compression of every snapshot it read, ends at the first pass that settles or fails and nowhere else, and counts exactly the interruptions that ended |
| Timeline.CompressionFaithful | scripts/talos_replacement_runtime.py:109-177 | the verdict on the kept snapshots is the verdict on all of them, complaint included |
| Timeline.AcceptedMeans | scripts/talos_replacement_runtime.py:116-177 | acceptance means: the old UIDs are exactly the nodes of the first snapshot on the old version, one Ready control plane and one Ready worker; in every snapshot each of them is there or its role has a Ready new node, and some control plane is Ready; the final nodes are others, Ready and new |
| Timeline.VerifyExactly | scripts/talos_replacement_runtime.py:116-177 | and conversely: the verdict is a proof exactly on timelines with that start, that service throughout and that end |
| Timeline.RefusalsMean | scripts/talos_replacement_runtime.py:116-167 | each refusal names something that is wrong with the timeline |
| Timeline.Prove | scripts/talos_replacement_runtime.py:297-377 | a run gives a verdict exactly when it converges, the verdict of all snapshots read; a proof vouches for all of AcceptedMeans about every one of them, kept or not; continuous exactly when the API was never unreachable |
| FlatcarResolver.ExactMapping | profile_resolvers/flatcar.py:170-185 | accepts exactly mappings within the expected one and completes them |
| FlatcarResolver.Resolve | profile_resolvers/flatcar.py:188-298 | accepts exactly configurations whose every field fits, and fills in the rest |
| FlatcarResolver.AcceptsExactly | profile_resolvers/flatcar.py:188-298 | which configurations are accepted, field by field against the profile |
| FlatcarResolver.ResolvedFields | profile_resolvers/flatcar.py:206-298 | and what each field ends up as; nothing else changes |
| FlatcarResolver.ResolveIdempotent | profile_resolvers/flatcar.py:188-298 | resolving twice is resolving once |
| FlatcarResolver.SuppliedKept | profile_resolvers/flatcar.py:170-185 | no supplied value is altered |
| FlatcarResolver.NameAndNetworkDecide | profile_resolvers/flatcar.py:188-298 | accepted configurations with the same name and network resolve to the same one |
| FlatcarResolver.MaterializedExactly | profile_resolvers/flatcar.py:188-298 | a configuration equals its resolution exactly when it is the resolution of some accepted one |
| TalosResolver.ResolveProvider | profile_resolvers/talos.py:111-148 | accepts exactly absent, named or canonical provider profiles with a fitting node selector, and writes the canonical one |
| TalosResolver.Resolve | profile_resolvers/talos.py:151-233 | accepts or refuses as specified and fills in profile, version and image identity |
| TalosResolver.ResolvedFields | profile_resolvers/talos.py:196-233 | selector, profile mapping, version and image fields end up as reviewed, beside every other field and entry unchanged |
| TalosResolver.ResolveIdempotent | profile_resolvers/talos.py:111-233 | resolving twice is resolving once |
| TalosResolver.MaterializedExactly | scripts/talos_golden_lifecycle.py:122-127 | the "fully materialized" check accepts exactly the image of the resolver |

## Left out

- kubectl, Helm, talosctl, TLS probing, YAML and JSON parsing, wall-clock time and sleeping: replaced by the API server of `ApiServer`, parsed values and a poll bound.
- SHA-256, canonical JSON and digest formats: texts are modelled as what they parse to plus a spelling.
- Finalizers: with other actors a deleted object may linger; without them a delete takes effect when it is accepted.
- Teardown.RetryConverges: assumes that objects a record is about were not replaced or spoilt by others; where they were, the run stops with the error the program gives, which the same methods state.
- Teardown.Teardown: a completed receipt that was migrated from the legacy namespace carries the guarantees of the run that wrote it there, which is before the history modelled here.
- StartFence.RunKeeps: the branch of the guided run that prepares with operator prompts when the run directory is absent is not reached from `ok up`, which prepares before, and is not modelled.
- StartFence.StartsAreApart: processes are a state machine with one step per access to a modelled entry and one action for a return at any point; the Go functions are not modelled as methods, and other files they read only stop a run.
- HandoffClaim.ClaimsAreApart: parent-directory permission checks, plan and policy digests and evidence-key checks only stop a run and are covered by the action that stops a process anywhere.
- Network.SuggestNetwork: `summarize_address_range` and `subnets` are specified by exact cover and enumeration; IPv4 only; the legacy allocators `next_free_ip`, `next_free_pod_cidr` and `next_free_svc_cidr` are first-fit by exact string and would only repeat easier claims.
- Network.ExcludeBuggy: the inventory walk and the API queries that collect occupied addresses are not modelled.
- Json.MergeElsewhere: strategic-merge directives such as `$patch: delete` are not deep merges and are not modelled; mappings have string keys.
- RegistryTrust.ComposeLaws: patches at ancestor paths such as `/machine` are kept in order but their interplay with the appended operations is not decided by the program and not stated.
- FlatcarResolver.SuppliedKept: Python compares `True` with `1` as equal; the model compares JSON values exactly.
- Replacement.ReadyMatches: the sorted name and UID lists returned beside the verdict are not modelled.
- NodeReadiness.ExpectedNodes: the texts of the diagnostic lines are not modelled, only their counts.
- The runner, its stage plan and ledger, the live executor, the Flatcar live lifecycle, OCI verification, benchmarks, capacity formulas and command-line plumbing.
