# Verified model of the Ironic operator

The Ironic operator rotates RabbitMQ and application-credential secrets under
running services, admits DHCP ranges, and keeps a few small pieces of shared
state. This project models those parts in Dafny and proves what they are for.

**Secret rotation.** Every controller puts a *consumer finalizer* on a secret it
uses, so that the secret cannot be revoked. On a rotation the parent (`Ironic`)
holds the new secret, renders it, pushes its name together with an input hash to
its children (`IronicAPI`, `IronicConductor`), waits until each reports that its
workload rolled out with that hash, and only then releases the old secret.
Strays are pruned at the end. `Rotation` is this protocol as a state machine:
one API call per step, steps of all controllers and of the environment
interleaved in any order, a reconcile stopping after any step, and its status
patch persisting what is in memory or failing. It has two variants: the code as
written, and a corrected one that leaves the notifications field of the status
alone and holds the application credential before it renders it. `Slot` is the
handshake for a single secret; `RotationRefinement` shows that the protocol
refines it once for every kind of secret: as written for the transport secret and
for the credential in the children's specs, corrected also for the notifications
secret and for the credential wherever it is named. `RotationSafety`,
`Handshake`, `Passes` and `Convergence` state what follows; `PassSafety` gives the
exact condition under which a reconcile of the parent leaves every secret in use
held, and `RotationGaps` the runs that miss it. `IronicController` and
`ChildController` are the reconcile code on its own fields, proved to be runs of
the machine; `UndisturbedReconcile` sums up the parent's in one function, and
`ReconcileOutcome` says what it leaves behind after any number of calls.
`InspectorCredential` is about the one credential whose users report nothing but
a generation. `SelfRotation`, `SelfRotationSafety`, `SelfController`,
`SelfOutcome` and `SelfGaps` do the same for the controllers that own their workload,
`IronicNeutronAgent` and `IronicInspector`; `Deletion` is about deleting CRs.

**DHCP ranges.** `IpBlocks` has addresses as byte strings and CIDR blocks as
intervals of numbers; `DhcpRanges`, `DhcpOverlap` and `Netmask` are the admission
checks and the netmask derivation on top of it.

**Small stateful cores.** `InotifyWatch` (event-buffer parser), `RouteAnnotations`
(who owns a HAProxy timeout), `ConductorGroups` (uniqueness of groups, and the
keys and names made of them), `WatchMapping` (which CRs a changed secret or
topology concerns).

What the code does not deliver as its comments intend, each stated as a lemma:

- The tracked notifications secret is overwritten before its rotation is
  finalized, so the old one is pruned while pods still use it
  (`TwoReconcilesForget` of `RotationGaps` and of `SelfGaps`, `NotificationsLost`).
  A variant that leaves the status field alone, as the transport path does, is
  proved safe.
- A single failing lookup of the notifications TransportURL forgets the tracked
  secret, and the next reconcile that gets to its prune takes its finalizer off
  (`FailedLookupForgets` of `ReconcileOutcome` and of `SelfGaps`).
- A new application credential is rendered into the parent's config, which API
  and conductor pods mount, by a reconcile that returns before it holds it
  (`EarlyPassIsSafeIff`, `RenderedCredentialUnheld`).
- A rotation A -> B -> C without waiting prunes B under pods that run B
  (`RapidRotationLost`), and makes a deleted inspector or agent leave B behind
  (`RapidRotationOutlivesDelete`).
- An application credential that is switched on and off again before its rollout
  is released while in use, because the applied hash the children reported before
  it was switched on is the expected one again (`SwitchedOffCredentialLost`).
- The inspector's init containers name the old transport secret, which loses its
  finalizer at the end of every rotation (`InspectorReleasesWhatInitNames`).
- The parent releases the inspector's old credential as soon as the inspector has
  observed its generation, with its pods still on it (`AnyRotationCanLose`).
- A DHCP range without a gateway is accepted whenever it parses
  (`AcceptedIffSound`), and only the last pair of ranges is ever reported as
  overlapping (`LastTestSilentIff`, `OverlapMissed`).
- Conductor groups that differ only in case pass admission and share one child CR
  (`CaseVariantsCollide`).

Assumptions about code outside the repository: a finalizer is added, removed and
pruned atomically; `FinalizeSecretRotation` is as in `Secrets`; reads are atomic;
hashes are injective, so a hash is modelled by the value it is computed from; a
workload is ready for an input only if all its pods run the template of that
input; one `Ironic` per namespace; the RPC transport stays `oslo`.

## Model

| member | source | states |
|---|---|---|
| `Secrets.FinalizeRotation` | internal/controller/ironic_controller.go:887-898 | a previous secret is given up only when it equals the current one, is none, or everything is ready; nothing else loses the finalizer |
| `Slot.StepKeeps` | internal/controller/ironic_controller.go:663-960 | every step of parent, children, workloads and environment keeps the invariant that makes the handshake of one secret safe |
| `Rotation.StepKeepsWf` | internal/controller/ironic_controller.go:1093-1111 | in every state spec and hash annotation of a child agree, also in the copy a running reconcile works on, and a template under observation is the one applied |
| `RotationRefinement.StepRefines` | internal/controller/ironic_controller.go:383-960 | each step of the full protocol is a step of the single-secret handshake, or none: as written for the transport secret and for the credential in the children's specs; in the corrected variant also for the notifications secret and for the credential in specs and config |
| `RotationRefinement.StepKeepsNamesApart` | internal/controller/ironic_controller.go:945-960 | transport and notifications names, which share one finalizer, stay apart in status, memory and locals |
| `RotationSafety.Safety` | internal/controller/ironic_controller.go:383-960 | over every run with one rotation of that kind at a time each secret in use carries the finalizer: as written the transport secret wherever named and the credential where a child's own spec carries it; in the corrected variant also the notifications secret and the credential wherever config, template, pod or running reconcile names it |
| `RotationSafety.ReadyMeansRolledOut` | internal/controller/ironic_controller.go:672-755 | with the same kinds and variants as Safety: once the parent goes on with all services ready for the secret asked for, spec, template and all pods of every child name no other secret of that kind |
| `PassSafety.ReadyBeforePass` | internal/controller/ironic_controller.go:672-755 | a reconcile finds every service ready if and only if each conductor and the API already has the specs it will be given, has observed them and has reported them |
| `PassSafety.KeptIff` | internal/controller/ironic_controller.go:858-974 | a reconcile that runs to its end leaves the finalizer exactly on the secret asked for and, unless everything is ready, on the tracked one |
| `PassSafety.FullPassIsSafeIff` | internal/controller/ironic_controller.go:858-974 | such a reconcile keeps every secret in use held if and only if what templates, pods and running reconciles name is the secret asked for, or the tracked one while some service is not ready |
| `PassSafety.EarlyPassIsSafeIff` | internal/controller/ironic_controller.go:579-612 | one that returns early on a changed config does so always, except that as written the application credential must be none or held before |
| `PassSafety.NextPassIsSafeIff` | internal/controller/ironic_controller.go:364-974 | the two conditions together are exact in every state that any history leads to, rotations at any pace, for every kind of secret and both variants |
| `Handshake.HandshakeSound` | internal/controller/ironic_controller.go:663-755 | over every run without restriction: all services ready implies that each conductor and the API completed a rollout of exactly the current transport and credential names |
| `Handshake.RecordedWasSeen` | internal/controller/ironicconductor_controller.go:868-884 | a rollout that a child has on record was seen: at some earlier moment of the run all its pods ran that very template, and a reconcile of the child found its workload ready |
| `UndisturbedReconcile.UndisturbedIsPass` | internal/controller/ironic_controller.go:364-974 | the call-by-call reconcile of the controller, when no call fails, computes one closed function of the state it starts in |
| `UndisturbedReconcile.ParentPassIsRun` | internal/controller/ironic_controller.go:364-974 | so that function is a run of the step-by-step protocol |
| `ReconcileOutcome.PushesInOrder` | internal/controller/ironic_controller.go:672-755 | after any number of calls: one push per call after the first seven, to the conductors in the order of the spec and then to the API; those reached have the names asked for in spec and annotation, the generation moved only with the spec, and all others are as they were |
| `ReconcileOutcome.TouchedInOrder` | internal/controller/ironic_controller.go:675-724 | a reconcile that touches the j-th conductor, or the API after all of them, has handed the names to every conductor before it |
| `ReconcileOutcome.StopsEarly` | internal/controller/ironic_controller.go:383-640 | the whole state when the reconcile stops before its first push: what is tracked, held and rendered after each call |
| `ReconcileOutcome.StopsWhilePushing` | internal/controller/ironic_controller.go:672-755 | the same when it stops among the pushes: nothing released, the status of before the first push |
| `ReconcileOutcome.StopsClosing` | internal/controller/ironic_controller.go:858-974 | the same when it stops among the releases and prunes, or after them: each previous secret is released and tracked no more exactly when every conductor and the API, as this reconcile leaves them, have observed and reported the names asked for |
| `ReconcileOutcome.RunsToEnd` | internal/controller/ironic_controller.go:858-974 | config, status and holders after a reconcile that came to its end |
| `ReconcileOutcome.PatchFails` | internal/controller/ironic_controller.go:154-173 | a failing status patch makes no other difference |
| `ReconcileOutcome.LookupFails` | internal/controller/funcs.go:229-246 | a failing notifications lookup leaves the tracked name empty, and has held the transport secret and changed nothing else |
| `ReconcileOutcome.ConfigChanges` | internal/controller/ironic_controller.go:579-607 | a changed config is rendered and recorded with the names just read, the input secrets are held, and nothing else changes |
| `ReconcileOutcome.FailedLookupForgets` | internal/controller/funcs.go:229-246 | after a failing lookup the tracked notifications secret keeps its finalizer through the next reconcile if and only if it is asked for again or that reconcile returns early |
| `Passes.NoLeak` | internal/controller/ironic_controller.go:945-974 | after a reconcile that ran to its end, from any state whatever, only tracked and current secrets carry the three finalizers |
| `Passes.NoLeakOverRuns` | internal/controller/ironic_controller.go:945-974 | the same over every interleaved run from the initial state, whatever rotations, stopped reconciles and lost patches came before |
| `RotationGaps.TwoReconcilesForget` | internal/controller/funcs.go:229-277 | from any state, two reconciles of the code as written keep the tracked notifications secret held if and only if no other one is asked for, ready or not |
| `RotationGaps.CorrectedRemembers` | internal/controller/ironic_controller.go:900-943 | the corrected variant keeps the tracked notifications secret held through the same two reconciles if and only if it is still asked for or some service is not ready |
| `RotationGaps.NotificationsLost` | internal/controller/funcs.go:231-275 | for any names: a run of the code as written, one rotation at a time, after which a pod uses a notifications secret nobody holds |
| `RotationGaps.RapidRotationLost` | internal/controller/ironic_controller.go:945-960 | for any names: a run A -> B -> C after which B is in use and not held, as the exact condition predicts |
| `RotationGaps.SwitchedOffCredentialLost` | internal/controller/ironic_controller.go:663-885 | for any names: a run in which a credential is switched on and off, each time after the last name was tracked, and is then in use and not held, as the exact condition predicts |
| `RotationGaps.RenderedCredentialUnheld` | internal/controller/ironic_controller.go:579-612 | for any names: a run of the code as written, one rotation at a time, after which an API pod mounts a config with a credential nobody holds |
| `Convergence.LeavesLess` | internal/controller/ironic_controller.go:594-960 | with inputs frozen and no failing call, whatever a reconcile or pod restart changes makes a lexicographic measure smaller |
| `Convergence.StillIsSettled` | internal/controller/ironic_controller.go:887-974 | a state that nothing can change any more tracks the current secrets, holders are exactly the current ones, and every child is rolled out |
| `Convergence.SettledIsStill` | internal/controller/ironic_controller.go:887-974 | in a settled state no pod is old, and once every child's history has its last rollout written down another reconcile of any controller changes nothing |
| `Convergence.Converges` | internal/controller/ironic_controller.go:594-974 | from every state without a running reconcile a run of the machine leads to a settled state that nothing changes |
| `Convergence.ConvergesFromAnywhere` | internal/controller/ironic_controller.go:594-974 | such a run exists after any history: rotations at any pace, stopped reconciles, lost patches |
| `Convergence.FairScheduleSettles` | internal/controller/ironic_controller.go:594-974 | every infinite schedule of whole reconciles and pod restarts, in any order, that does not put off for ever one that would change something comes to a settled state with the same inputs and stays there for good |
| `Convergence.SettlesFromAnywhere` | internal/controller/ironic_controller.go:594-974 | the same after any history, once the reconciles under way have ended |
| `IronicController.ReconciledIsRun` | internal/controller/ironic_controller.go:154-173 | a reconcile that stops after any number of calls, patched or not, is a run of the protocol |
| `IronicController.Controller.ReadTransportURL` | internal/controller/ironic_controller.go:383-447 | one protocol step; the new secret is tracked at once only on first setup |
| `IronicController.Controller.EnsureNotificationsTransportURL` | internal/controller/funcs.go:221-280 | one protocol step: the tracked name is overwritten, or, when the lookup fails, left empty and the reconcile ends |
| `IronicController.Controller.GenerateServiceConfig` | internal/controller/ironic_controller.go:579-607 | one protocol step; a changed hash is recorded and ends the reconcile |
| `IronicController.Controller.DeployChild` | internal/controller/ironic_controller.go:1041-1182 | one protocol step; spec and annotation in one write, generation moved only with the spec, and the readiness test on the result |
| `IronicController.Controller.DeployConductors` | internal/controller/ironic_controller.go:675-722 | the loop over the conductors reaches exactly the first ones of the spec, as many as calls succeed, and touches no other child |
| `IronicController.Controller.DeployServices` | internal/controller/ironic_controller.go:672-755 | all conductors and then the API get the names, with readiness accumulated over all of them; a loop that stops has not touched the API |
| `IronicController.Controller.FinalizeTransports` | internal/controller/ironic_controller.go:887-943 | the two transport rotations end as the protocol says, gated on readiness |
| `IronicController.Controller.PruneStrays` | internal/controller/ironic_controller.go:945-974 | the three prunes are the protocol's last steps |
| `IronicController.Controller.ReconcileNormal` | internal/controller/ironic_controller.go:364-974 | fields and in-memory status after a given number of successful calls, the notifications lookup failing or not, are those of the protocol after that many steps |
| `IronicController.Controller.Reconcile` | internal/controller/ironic_controller.go:115-217 | the stored state after a reconcile, the notifications lookup failing or not, is the protocol's, the in-memory status being patched on every way out unless the patch fails |
| `IronicController.Controller.ReconcileDelete` | internal/controller/ironic_controller.go:273-362 | the CR's own finalizer goes only when no secret holds any of the three consumer finalizers; an attempt that stops has taken off the credentials it got to and, from the fifth call on, tracked transport, current transport, current notifications and tracked notifications secret, in this order |
| `InspectorCredential.PassIsSafeIff` | internal/controller/ironic_controller.go:757-885 | in any state whatever: a reconcile of the parent keeps the inspector's credentials in use held if and only if it returns early, or what the inspector's template and pods were rendered for is the credential asked for, or the tracked one while not everything counts as ready |
| `InspectorCredential.SafeWhenHonest` | internal/controller/ironic_controller.go:775-777 | were the inspector to count as ready only with its pods caught up, every credential in use would stay held along one-at-a-time rotations |
| `InspectorCredential.AnyRotationCanLose` | internal/controller/ironicinspector_controller.go:250-250 | from every settled state every rotation of the inspector's credential can take the finalizer off the one its pods run, because the generation is observed before the pods are replaced |
| `ChildController.ReconciledIsRun` | internal/controller/ironicconductor_controller.go:637-885 | every reconcile of a child, wherever it stops, is a run of the protocol |
| `ChildController.UndisturbedIsPass` | internal/controller/ironicconductor_controller.go:637-885 | with its three calls succeeding and its status patched, the reconcile of the controller is the pass that convergence is about |
| `ChildController.ReportsIff` | internal/controller/ironicapi_controller.go:759-1027 | the child reports the expected hash exactly when the reconcile got through, found the hash of spec, config and other inputs unchanged, and every pod runs the template for it; template, hash and observed generation after every number of calls |
| `ChildController.ChildPassIsRun` | internal/controller/ironicapi_controller.go:849-1027 | in particular the one in which no call fails, as one function |
| `ChildController.Controller.ReconcileNormal` | internal/controller/ironicapi_controller.go:759-1027 | template, hash and applied hash after every number of calls, in terms of the fields: the expected hash is copied exactly for an unchanged input hash that every pod runs |
| `ChildController.Controller.Reconcile` | internal/controller/ironicconductor_controller.go:637-885 | the stored child after a reconcile is the protocol's, and after one that gets through it reports the expected hash exactly when every pod runs the template |
| `SelfRotation.StepKeepsWf` | internal/controller/ironicneutronagent_controller.go:761-937 | what every step of the self-owned rotation keeps, whatever rotations went before |
| `SelfRotation.HeldBeforeNamed` | internal/controller/ironicneutronagent_controller.go:457-468 | in every reachable state, a step that makes status, config or template name another transport secret leaves that secret with the finalizer |
| `SelfRotation.ReleasedOnlyWhenReady` | internal/controller/ironicneutronagent_controller.go:848-867 | in every reachable state, the tracked secret loses its finalizer only in the finalization of a reconcile that found every pod on the config rendered for the other, held, secret |
| `SelfRotationSafety.Safety` | internal/controller/ironicneutronagent_controller.go:413-927 | over every run with one rotation at a time: each transport secret used by config, template or pods carries the finalizer |
| `SelfRotationSafety.NoLeak` | internal/controller/ironicinspector_controller.go:1170-1185 | after any history, once a reconcile ended and was patched, only tracked and current secrets hold the finalizer, and the current one does |
| `SelfRotationSafety.InspectorReleasesWhatInitNames` | internal/ironicinspector/statefulset.go:350-368 | when the inspector finalizes a rotation, the init containers are left with a held secret if and only if there is no pod |
| `SelfRotationSafety.InitSecretCanBeLost` | internal/controller/ironicinspector_controller.go:837-1125 | from any inspector state that tracks the live secret, a rotation to any other name can end like that |
| `SelfController.ReconciledIsRun` | internal/controller/ironicneutronagent_controller.go:761-937 | a reconcile that stops anywhere is a run of the protocol |
| `SelfController.Controller.ReconcileTransportURL` | internal/controller/ironicneutronagent_controller.go:413-468 | hold, then track on first setup, as the protocol's steps |
| `SelfController.Controller.ReconcileConfig` | internal/controller/ironicneutronagent_controller.go:507-676 | the config is rendered, and a changed hash ends the reconcile |
| `SelfController.Controller.ReconcileWorkload` | internal/controller/ironicinspector_controller.go:837-960 | template and readiness as in the protocol, with the inspector's early return |
| `SelfController.Controller.FinalizeRotations` | internal/controller/ironicneutronagent_controller.go:848-910 | both rotations end as the protocol says |
| `SelfController.Controller.Reconcile` | internal/controller/ironicneutronagent_controller.go:761-937 | the stored state after a reconcile, the notifications lookup failing or not, is the protocol's |
| `SelfController.Controller.ReconcileDelete` | internal/controller/ironicneutronagent_controller.go:950-1001 | a completed delete takes the finalizer off the tracked and the live secrets, and off no other |
| `SelfOutcome.StopsEarly` | internal/controller/ironicneutronagent_controller.go:413-505 | what is tracked and held when the reconcile stops in its first four calls |
| `SelfOutcome.LookupFails` | internal/controller/ironicneutronagent_controller.go:477-490 | a failing notifications lookup leaves the tracked name empty, and has held the transport secret and changed nothing else |
| `SelfOutcome.ConfigChanges` | internal/controller/ironicneutronagent_controller.go:507-676 | a changed config is rendered and recorded with the names just read, the input secrets are held, and nothing else changes |
| `SelfOutcome.StopsApplying` | internal/controller/ironicinspector_controller.go:837-912 | the whole state when the reconcile stops after its config or its template |
| `SelfOutcome.StopsFinalizing` | internal/controller/ironicneutronagent_controller.go:848-910 | holders and status when it stops between or after the two releases |
| `SelfOutcome.RunsToEnd` | internal/controller/ironicinspector_controller.go:837-1185 | config, template, status and holders at its end, or where the inspector returns because its pods are not ready |
| `SelfGaps.TwoReconcilesForget` | internal/controller/ironicneutronagent_controller.go:793-927 | from any state, two reconciles after the notifications secret changed keep the tracked one held if and only if no other is asked for, or the inspector returns early because its pods are not ready |
| `SelfGaps.FailedLookupForgets` | internal/controller/ironicneutronagent_controller.go:477-490 | after a failing lookup the tracked notifications secret keeps its finalizer through any later reconcile if and only if it is asked for again or that reconcile does not get to its prune |
| `Deletion.RemoveEach` | internal/controller/ironic_controller.go:338-344 | exactly the listed names up to the first failing call lose the finalizer |
| `Deletion.RetriesRemoveListed` | internal/controller/ironicinspector_controller.go:1290-1319 | attempts that stopped half way change nothing about what a completed one leaves behind |
| `Deletion.DeleteIsCompleteIff` | internal/controller/ironicinspector_controller.go:1290-1319 | across retries nothing is left behind if and only if all holders are tracked or live secrets |
| `Deletion.DeleteAfterFullReconcile` | internal/controller/ironicneutronagent_controller.go:968-997 | that is so right after a reconcile that ran to its end |
| `Deletion.RapidRotationOutlivesDelete` | internal/controller/ironicneutronagent_controller.go:968-997 | and it is not in the middle of any rotation A -> B -> C |
| `IpBlocks.CompareIsNumeric` | api/v1beta1/ironic_webhook.go:450-455 | lexicographic byte order is numeric order, and equality |
| `IpBlocks.MatchIsQuotient` | api/v1beta1/ironic_webhook.go:439-448 | matching under a mask of leading ones is agreement of the numbers above the host bits |
| `IpBlocks.MatchIsBlock` | api/v1beta1/ironic_webhook.go:439-448 | membership by mask is membership in an interval of 2 to the power of the host bits |
| `IpBlocks.BlockIsConvex` | api/v1beta1/ironic_webhook.go:439-448 | every address between two members is a member |
| `IpBlocks.Contains` | api/v1beta1/ironic_webhook.go:439-448 | the byte-wise loop decides membership in that interval, and no address of the other family is a member |
| `DhcpRanges.ValidateDHCPRange` | api/v1beta1/ironic_webhook.go:377-458 | each fault is reported if and only if its condition on the fields holds, once and in order; no fault if and only if the range is of the accepted form |
| `DhcpRanges.AcceptedRangeLiesInNetwork` | api/v1beta1/ironic_webhook.go:392-457 | with a gateway, every 16-byte address from start to end of an accepted range is IPv4 and in the network, start is before end, and the gateway is in the network |
| `DhcpRanges.AcceptedIffSound` | api/v1beta1/ironic_webhook.go:403-416 | with a non-empty gateway field exactly the sound ranges are accepted; with an empty one, whatever parses |
| `DhcpRanges.UnsoundRangeAccepted` | api/v1beta1/ironic_webhook.go:414-416 | a backward range outside its network that is accepted |
| `DhcpOverlap.SilentIffDisjoint` | api/v1beta1/ironic_webhook.go:522-576 | the pairwise test is silent if and only if no address is in both ranges, a backward range counting as its start |
| `DhcpOverlap.OverlapIsSymmetric` | api/v1beta1/ironic_webhook.go:522-576 | silence does not depend on the order of the two ranges |
| `DhcpOverlap.CollectAll` | api/v1beta1/ironic_webhook.go:468-505 | every range whose start and end parse, once, with its path, start and end, and nothing else: the inspector's before all conductors', conductors in order, indices ascending |
| `DhcpOverlap.ValidateDHCPRangesOverlap` | api/v1beta1/ironic_webhook.go:462-518 | the loop as written reports the last range that parses against the one before it, if they have an address in common, and nothing else |
| `DhcpOverlap.ValidateAllOverlaps` | api/v1beta1/ironic_webhook.go:507-515 | the loop that appends over each pair is silent if and only if no two ranges that parse have an address in common, and agrees with the code for up to two |
| `DhcpOverlap.LastTestSilentIff` | api/v1beta1/ironic_webhook.go:507-515 | the code as written is silent if and only if the last two ranges are disjoint |
| `DhcpOverlap.OverlapMissed` | api/v1beta1/ironic_webhook.go:513-513 | for every length from three on, a list with an overlap that goes unreported |
| `Netmask.MaskIsInjective` | internal/ironic/funcs.go:119-124 | the prefix length can be read back from the mask |
| `Netmask.MaskSize` | internal/ironic/funcs.go:122-124 | counting the ones gives the prefix length of a mask, and rejects all other byte strings |
| `Netmask.PrefixOrNetmaskFromCIDR` | internal/ironic/funcs.go:110-129 | a list of the same length and order, or the unchanged input if and only if some CIDR does not parse |
| `Netmask.DerivedDenotesBlock` | internal/ironic/funcs.go:119-124 | netmask and prefix denote the block of the CIDR for every address, and no other field changes |
| `InotifyWatch.Watch` | templates/common/bin/inotify_watch.py:87-100 | the loop over a buffer prints what the record-by-record definition says, reads only inside the buffer and ends |
| `InotifyWatch.ParsesRecords` | templates/common/bin/inotify_watch.py:87-100 | parsing distributes over records followed by anything |
| `InotifyWatch.ParseInvertsEncode` | templates/common/bin/inotify_watch.py:29-37 | for every list of well-formed records exactly the names of the close-write ones are printed, in order |
| `InotifyWatch.TruncatedHeader` | templates/common/bin/inotify_watch.py:90-91 | a header that is cut off raises an error after the names before it |
| `InotifyWatch.OneRecord` | templates/common/bin/inotify_watch.py:87-100 | a buffer of one record told by its bytes: length in bytes 12 to 15, close-write flag in bit 3 of byte 4, the name up to its padding |
| `InotifyWatch.CutOffName` | templates/common/bin/inotify_watch.py:93-99 | a name that the buffer cuts off is printed as far as it goes, without an error |
| `RouteAnnotations.Route.SetDefault` | api/v1beta1/ironic_webhook.go:690-713 | the map after the update in place |
| `RouteAnnotations.Route.SetDefaultInspectorRouteAnnotations` | api/v1beta1/ironic_webhook.go:716-739 | the same with the inspector's flag |
| `RouteAnnotations.CallSettles` | api/v1beta1/ironic_webhook.go:690-713 | after a call a flag implies an equal timeout, a second call changes nothing, and the operator's timeout is set if and only if no human's was |
| `RouteAnnotations.OverwritesOtherIff` | api/v1beta1/ironic_webhook.go:690-739 | one variant overwrites a timeout of the other if and only if it owns it too and wants another |
| `RouteAnnotations.HumanTimeoutSurvives` | api/v1beta1/ironic_webhook.go:700-708 | a human's timeout survives every sequence of calls of both variants with any timeouts |
| `RouteAnnotations.VariantsRespectEachOther` | api/v1beta1/ironic_webhook.go:690-739 | along runs with human edits that leave at most one flag, and none without a timeout, neither variant touches what the other owns |
| `RouteAnnotations.UntidyEditStartsConflict` | api/v1beta1/ironic_webhook.go:690-739 | an edit that leaves a flag without a timeout lets both variants own one timeout, and then either of them overwrites it with any other |
| `RouteAnnotations.OverwrittenGivesUp` | api/v1beta1/ironic_webhook.go:690-739 | after an overwriting the other variant's next call, with any timeout, leaves the timeout alone and gives its flag up; along operator calls another overwriting needs the same variant to ask for exactly the overwritten timeout again |
| `RouteAnnotations.FixedTimeoutsOverwriteOnce` | api/v1beta1/ironic_webhook.go:690-739 | as long as each variant keeps to its own timeout, operator calls overwrite at most once, from any annotations |
| `RouteAnnotations.WaveringOverwritesForever` | api/v1beta1/ironic_webhook.go:690-739 | without that, from annotations both own, operator calls alone can overwrite any number of times |
| `ConductorGroups.ValidateConductorGroupsUnique` | api/v1beta1/ironic_webhook.go:325-360 | accepted if and only if no two groups are the same, the unset one counting as the text that stands for it; every repetition is reported, against its first occurrence |
| `ConductorGroups.MirrorReadyCounts` | internal/controller/ironic_controller.go:694-701 | the ready counts hold the counts of conductors that caught up, and nothing else |
| `ConductorGroups.AdmittedCountsAreOwn` | internal/controller/ironic_controller.go:694-701 | after admission no two conductors write one key |
| `ConductorGroups.SameChildIff` | internal/controller/ironic_controller.go:1049-1052 | two groups get one child name if and only if they agree in lower case |
| `ConductorGroups.ChildrenDistinctIff` | internal/controller/ironic_controller.go:1049-1052 | children are distinct if and only if the groups are in lower case |
| `ConductorGroups.LowerText` | internal/controller/ironic_controller.go:1049-1052 | exactly the letters from A to Z are changed, each to its small letter |
| `ConductorGroups.ChildNameText` | internal/controller/ironic_controller.go:1049-1052 | the child of a group is named after instance and group in lower case; without a group the instance keeps its case |
| `ConductorGroups.CaseVariantsCollide` | internal/controller/ironic_controller.go:1049-1052 | every group that is not in lower case is admitted together with its lower-case variant and collides with it |
| `WatchMapping.GetOwningIronicName` | api/v1beta1/funcs.go:24-32 | the name of the first owner of kind Ironic, or the empty name if there is none |
| `WatchMapping.FindObjectsForSrc` | internal/controller/ironicapi_controller.go:337-397 | exactly the CRs found by the label pass, unless its list failed, and by the lookups before the first that failed |
| `WatchMapping.FoundByFirst` | internal/controller/funcs.go:61-76 | a search that a failing lookup ends has found the CRs whose Ironic the label names and those whose first watched fields, in the listed order, hold the name |
| `WatchMapping.IndexedIffWatched` | internal/controller/ironicapi_controller.go:230-312 | a CR is in one of the indexes under a name if and only if a watched field holds it |
| `WatchMapping.MappingIsFullScan` | internal/controller/ironicconductor_controller.go:298-360 | with no list error exactly the CRs of the namespace are requested, by name and namespace, whose Ironic the label names or one of whose watched fields holds the name |

## Left out

- RotationSafety.Safety: of the code as written it leaves out the notifications secret and the application credential as the parent's config names it, for which it is false; they have it in the corrected variant, and the exact conditions for the code as written are `TwoReconcilesForget` and `NextPassIsSafeIff`.
- RotationSafety.ReadyMeansRolledOut: restricted in the same way.
- RotationRefinement.StepRefines: restricted in the same way.
- Convergence.FairScheduleSettles: its schedules consist of whole reconciles that no call fails in; a measure over the single steps of interleaved reconciles is not given.
- InspectorCredential.PassIsSafeIff: reconciles of parent and inspector are whole ones there.
- Deletion.DeleteIsCompleteIff: the live names are taken not to change between attempts.
- Inspector and neutron-agent readiness in the parent looks only at generations, so it enters the machine as an arbitrary boolean; what that means for the inspector's credential is in `InspectorCredential`.
- Switching between oslo and json-rpc, and shrinking the list of conductors, are not steps of the machine.
- What a spec says is read at the moment of its first use in a reconcile; specs are otherwise inputs that may change at any time.
- Conditions, messages, database, keystone, topology, services, routes, RBAC and upgrade calls: they appear as calls that may fail.
- Parsing of address texts and printing of netmasks as dotted decimals: addresses, masks and CIDRs are byte strings; IPv4-mapped IPv6 CIDRs are not considered.
- Decoding of event names as UTF-8 and the line printed around them; hosts that are not little-endian.
- Lower-casing of letters outside ASCII; rendering of the API timeout as text.
- Deep-copy code, image defaults, the RPC transport check and other simple defaulting.
