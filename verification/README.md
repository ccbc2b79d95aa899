# TopoVGM: a verified model of the volume group controller

TopoVGM keeps lvm2 volume groups on the nodes of a Kubernetes cluster in step with `VolumeGroup` resources.
This project models its reconciler, the selector that chooses the physical volumes, and the helpers both rest
on, and proves what they keep, reach and never do.

| file | what it models |
|---|---|
| `Utils.dfy`, `SnakeCase.dfy`, `Sorting.dfy` | ordered differences, the two regex passes of `ToSnakeCase`, sort and compact |
| `Lsblk.dfy`, `Selector.dfy` | the device forest, its flattening, the evaluation loops against a declarative meaning, down to which error or panic comes first |
| `Lvm.dfy`, `Moving.dfy` | volume groups with capacities and placed extents, each lvm2 command as condition and effect, sequences of `pvmove` |
| `Api.dfy`, `World.dfy`, `Environment.dfy` | the resource and its conditions; host plus API server, what each call may do, what others may change; a mutable client with a history of its calls |
| `SyncSpec.dfy`, `ReconcileSpec.dfy` | what one synchronisation and one reconcile may do and must reach |
| `Outcomes.dfy`, `Passes.dfy`, `Endings.dfy` | what is returned, joined and stored of it: errors against the calls that failed, the verdict of a synchronisation, how each path of a reconcile ends |
| `Controller.dfy` | the reconciler itself, imperatively, proved against these |
| `Rounds.dfy` | consecutive synchronisations: convergence |
| `Fleet.dfy`, `Weaving.dfy` | one reconciler per node, any interleaving of their calls; how the calls of one reconcile fit in; ownership |
| `Conservation.dfy`, `Finalizers.dfy`, `Resuming.dfy`, `Soundness.dfy` | what holds of all runs: no extent lost, no device taken that was not selected, finalizer safety, resumption, truth of the stored condition |

How the pieces meet. `Controller.Reconciler` calls a `Client` whose every call has its effect, fails, or is
interrupted (then the effect may or may not have happened, and a `pvmove` may have happened in part). Before
each call users may edit resources, the reconcilers of other nodes may do with their own resources as they like,
and devices may appear, vanish or get lost. `Reconcile` is proved to make only calls that `ReconcileSpec.Issued`
allows for the resource it has read. `Fleet` takes exactly such calls as the steps of a cluster.
`Weaving.ReconcileIsARun` joins the two: calls that are a reconcile's as it sees them itself, which is what the contract
of `Reconcile` gives, form a run with any steps of other nodes in between, and to the reconcile these are a
disturbance of the kind its contract allows for. A reconcile that is cut off is any beginning of one. What holds in
every state of a `Fleet.Run` therefore holds for all runs of the code, however often it fails, restarts or is
interleaved with other nodes.

The recursion of `sync` ends: `Controller.Reconciler.Sync` has the lexicographic measure (device changes
still to come, missing volumes of the group). A `Client` has a finite number of device changes; edits of
resources are not limited.

What the environment is taken to do:

- lvm2 enforces the limits of volumes, refuses to use missing, foreign or already used devices, and removes
  what each policy documents (`api/v1alpha1/volumegroup_types.go:56-71`, `:376-405`). Volume groups of the host are
  changed by reconcilers only. A missing-volume error is given only if volumes are missing.
- Users may change everything in a resource but its node, its conditions and this controller's finalizer; a new
  specification has a new generation and deletion is final. A resource under deletion disappears with its last
  finalizer. An update is refused if the stored version is not the one read.
- One reconciler per node, one resource at a time.

Theorems about the group of a resource ask that the name is its own in the stretch of the run they are about
(`Fleet.OwnsName`): no other resource on its node asks for it meanwhile or is still being worked on under it, as
`api/v1alpha1/volumegroup_types.go:35` demands, and its own `nameOnNode` is not edited. The name may have belonged to
others before and may again afterwards. What is said of a resource from the beginning starts in any state in which no
reconciler has seen it (`Finalizers.Unseen`), before its birth for instance (`Finalizers.UnbornIsUnseen`).

Where the code and its documentation or apparent intention differ, the model follows the code:

- A selector term without requirements takes every device (`internal/selector/selector.go:52`); it is
  documented to match none. See `Selector.EmptyTermTakesAll`.
- `Gt` sees 0 in any present column that does not hold an `int`, and decoded JSON never does
  (`internal/selector/selector.go:96-103`), so it holds exactly for negative bounds: `Selector.GtOnDecodedJson`.
- `convertToAutoActivation` does not look at the value: any explicit setting turns activation off, so a group in
  agreement does what the user wrote exactly if that is `false`: `ReconcileSpec.AutoActivationIsAlwaysOff`.
- A policy goes to `vgcreate` as it is written and to `vgchange` in snake case, so a fresh group is already
  settled exactly if the policy has no capital. See `ReconcileSpec.FreshGroupIsSettled`.
- `nameOnNode` is documented to rename the group. Lookup uses the new name, so no reconcile ever issues a rename
  (`ReconcileSpec.Issued` has no such case). From the moment nobody asks for the old name any more, its group is never
  touched again (`Fleet.BystandersUntouched`); `Resuming.RenamedGroupStaysBehind` is a run in which the resource is
  deleted and the old group remains.
- A reconcile can panic. Undisturbed it does so exactly if `ReconcileSpec.Crashing`: the first fault in evaluating the
  selector is a panic, or the finalizer is there, the group is not, and a new one can be made, whose snapshot is then
  dereferenced although there is none. The selector panics on three inputs: `In` on a column that is no string, `Gt`
  with an empty list of values (nothing in the resource definition forbids it), and a selected device whose path is
  no string (`Selector.InOnNumberPanics`, `GtWithoutValuesPanics`, `PathOfOtherTypePanics`). The other case takes
  somebody else to remove the group (`Resuming.MissingGroupCrashes`, `Finalizers.MissingGroupIsNeverMet`).
- The group is created before the finalizer is stored. A resource deleted in between leaves its group behind:
  `Resuming.UnclaimedGroupStaysBehind`. From the moment the finalizer is stored this cannot happen, as long as the
  name stays its own: `Finalizers.NothingIsLeftBehind`.
- The status shows the physical volumes after, but tags and limits before the synchronisation
  (`ReconcileSpec.Reported`).
- An empty selection can never be reached from a group with volumes: lvm2 keeps the last one, which is why
  `SyncSpec.Removable` asks for a non-empty desired set.

## Model

| member | source | states |
|---|---|---|
| Utils.InLeftButNotInRight | internal/utils/utils.go:14-35 | the loop computes the ordered difference; as sets it is left minus right |
| Utils.DiffElements | internal/utils/utils.go:8-13 | the difference holds exactly what is in left and not in right |
| Utils.DiffMultiplicity | internal/utils/utils.go:27-34 | an element keeps all its copies or none |
| Utils.DiffIsSubsequence | internal/utils/utils.go:9 | the order of left is kept: there are increasing positions of left that spell the difference |
| SnakeCase.ToSnakeCaseIsPointwise | internal/utils/utils.go:74-81 | two leftmost, greedy, non-overlapping passes and lowering equal one rule that looks at a character and its neighbours only |
| SnakeCase.RoundTrip | internal/utils/utils.go:74-81 | camel case of a list of lower-case words is split at exactly the word boundaries if and only if no two one-letter words are adjacent |
| SnakeCase.TwoOrMoreLettersRoundTrip | internal/utils/utils.go:74-81 | words of at least two letters always come back joined by underscores |
| SnakeCase.Idempotent | internal/utils/utils.go:77-81 | applying the conversion twice is applying it once |
| SnakeCase.FixpointIffNoUpper | internal/utils/utils.go:77-81 | the conversion changes nothing exactly if there is no capital |
| SnakeCase.SnakeCaseOnlyAddsUnderscores | internal/utils/utils.go:77-81 | the result is the lowered input with nothing but underscores inserted |
| SnakeCase.ToSnakeCaseSplits | internal/utils/utils.go:74-81 | where every character ends up: an underscore stands before a capital after a small letter or digit, or after anything but a line break if a small letter follows, and nowhere else |
| Lsblk.RecursiveBlockDevices | internal/lsblk/lsblk.go:144-150 | the recursive loop yields each device followed by all below it |
| Lsblk.FlattenHoldsEveryNode | internal/lsblk/lsblk.go:97-105 | a device is in the flat list exactly if it is at some place of the forest, also under several parents |
| Lsblk.FlattenInOrder | internal/lsblk/lsblk.go:144-150 | the flat list goes through the places of the forest in order, each once, a device before what is below it |
| Lsblk.KeysOfPathAndType | internal/lsblk/lsblk.go:92-95 | columns are looked up under their names in small letters |
| Lsblk.FlattenProject | internal/lsblk/lsblk.go:107-121 | asking lsblk for fewer columns and flattening commute |
| Sorting.SortSorts | internal/selector/selector.go:62 | sorting gives a sorted list of the same strings |
| Sorting.CompactSorted | internal/selector/selector.go:63-64 | compacting a sorted list makes it strictly increasing and keeps its elements |
| Sorting.IncreasingUnique | internal/selector/selector.go:62-64 | a strictly increasing list is determined by its set of elements |
| Sorting.LessIsLexicographic | internal/selector/selector.go:62 | the order is that of Go: the first difference decides, a proper prefix comes first |
| Selector.MatchesLSBLKRequirement | internal/selector/selector.go:69-111 | each operator decides its relation, and fails exactly on faulty pairs of device and requirement, with that very error or panic |
| Selector.EvaluateTerm | internal/selector/selector.go:43-58 | counting matches decides whether all requirements hold; the outcome is the first fault of the requirements, then that of the path |
| Selector.SelectForTerm | internal/selector/selector.go:42-59 | one term against all devices adds exactly the matching paths, or ends with the fault of the first faulty device |
| Selector.SelectDevices | internal/selector/selector.go:35-67 | success: strictly increasing, and a path is in it exactly if a device of that path meets every requirement of some term; otherwise the error or panic that comes first, and that exactly if some pair aborts |
| Selector.ExistsSelects | internal/selector/selector.go:71-78 | on the columns themselves: `Exists` takes the devices that have the column, `DoesNotExist` those that have not |
| Selector.InSelects | internal/selector/selector.go:79-85 | on the columns themselves: the column is one of these texts, or is not there and the empty text is one of them |
| Selector.GtSelects | internal/selector/selector.go:86-108 | on the columns themselves: the column is there and exceeds the bound, 0 standing for anything but an int |
| Selector.UnknownSelectsNone | internal/selector/selector.go:70-110 | an operator that is not known takes nothing |
| Selector.TermIntersects | internal/selector/selector.go:43-58 | a term takes exactly what all its requirements take |
| Selector.AloneFails | internal/selector/selector.go:79-103 | on the columns themselves: what one requirement and one device fail with, and in which order that is looked for |
| Selector.TermsFailInOrder | internal/selector/selector.go:41-60 | the fault of the first term that has one is what counts |
| Selector.DevicesFailInOrder | internal/selector/selector.go:42-60 | for a term, the fault of the first device that has one |
| Selector.RequirementsFailInOrder | internal/selector/selector.go:43-58 | for a device, the fault of the first requirement that has one, and that of the path last |
| Selector.AbortsIffFault | internal/selector/selector.go:41-60 | there is a first fault exactly if something somewhere cannot be evaluated, in whatever order |
| Selector.PanicsOrErrs | internal/selector/selector.go:41-60 | a panic needs a panicking pair of term and device, an error one that errs |
| Selector.PanicsIff | internal/selector/selector.go:41-60 | if nothing errs, evaluation panics exactly if some pair panics |
| Selector.InOnNumberPanics | internal/lsblk/lsblk.go:84-90 | `In` on a column that is no string panics |
| Selector.GtWithoutValuesPanics | internal/selector/selector.go:90 | `Gt` with an empty list of values panics |
| Selector.PathOfOtherTypePanics | internal/selector/selector.go:53 | a selected device whose path is no string panics |
| Selector.RequestedColumns | internal/selector/selector.go:21-29 | strictly increasing, hence duplicate-free, and exactly PATH and the referenced keys |
| Selector.ProjectionSafe | internal/selector/selector.go:21-35 | evaluating on the requested columns only gives the same paths and the same first fault as on full devices |
| Selector.OrderIrrelevant | internal/selector/selector.go:41-66 | neither success nor result depends on the order or repetition of terms, requirements or devices |
| Selector.ConcatSelectsUnion | internal/selector/selector.go:41-66 | concatenated selectors give the sorted union of the results |
| Selector.EmptyTermTakesAll | internal/selector/selector.go:52 | a term without requirements takes every device |
| Lvm.EffectKeepsValid | api/v1alpha1/volumegroup_types.go:56-71 | no command exceeds a limit or a capacity, loses an extent's volume, or puts a volume into two groups |
| Lvm.GentleKeepsExtents | api/v1alpha1/volumegroup_types.go:376-405 | only forced commands can destroy extents; an unforced reduction or removal finds none |
| Moving.Relocate | internal/controller/volumegroup_controller_sync.go:134-138 | a capacity-only pvmove empties the source whenever its extents fit in total |
| Moving.MoveLoopSucceedsIffFits | internal/controller/volumegroup_controller_sync.go:134-138 | in any order and with any placement no move is refused if everything fits in total; if all moves succeed, everything did fit |
| Moving.EachExtentMovesOnce | internal/controller/volumegroup_controller_sync.go:134-138 | an extent that has been moved is not moved again, even if the last pvmove was cut off |
| Moving.CutRunHops | internal/controller/volumegroup_controller_sync.go:134-138 | however the loop ends, an extent is where it was or has gone from a source to a target |
| Moving.SourcesAreEmptied | internal/controller/volumegroup_controller_sync.go:134-142 | what has been worked off holds nothing; each extent is where it was or has gone from a source to a target |
| Moving.RunKeepsExtents | internal/controller/volumegroup_controller_sync.go:134-138 | the move loop keeps every extent |
| Api.SetSetsCondition | internal/controller/volumegroup_synced_on_host.go:27-48 | setting leaves one synced condition of this generation, other types alone, and nothing ahead of the generation |
| Api.SetReplaces | internal/controller/volumegroup_synced_on_host.go:30 | a condition of the same type is replaced where it stands |
| Outcomes.JoinedIsJoin | internal/controller/volumegroup_controller_sync.go:40-44 | joining keeps every error of every part, in order, and is nil only if all parts are |
| Outcomes.AccountedOutcome | internal/controller/volumegroup_controller_sync.go:40-49 | errors that account for the calls made are nil exactly if none failed, and complain of missing volumes exactly if some call did |
| Environment.Client.Run | api/v1alpha1/volumegroup_types.go:376-405 | any client call: what users, devices and other nodes do, then effect, failure or interruption, recorded in the history |
| Controller.VolumeGroupObject.SetSyncedOnHostDefault | internal/controller/volumegroup_synced_on_host.go:27-31 | one synced condition, False and pending, at this generation; others kept |
| Controller.VolumeGroupObject.SetSyncedOnHostCreationFailed | internal/controller/volumegroup_synced_on_host.go:33-39 | one synced condition, False and failed, at this generation; others kept |
| Controller.VolumeGroupObject.SetSyncedOnHostCreationOK | internal/controller/volumegroup_synced_on_host.go:41-48 | one synced condition, True and synced, at this generation; others kept |
| Controller.Reconciler.Evaluate | internal/selector/selector.go:21-66 | asking only for the columns needed, then selecting, gives the sorted paths of the full forest, or the very fault that comes first on it |
| Controller.Reconciler.GetPhysicalVolumeNames | internal/controller/volumegroup_conversion_util.go:39-49 | success gives the sorted paths the selector asks for; otherwise the failed call of lsblk or the first fault of the evaluation is returned, which is a panic if that is one; lsblk is asked for the columns referred to, and not at all for an empty selector |
| Controller.Reconciler.SequentialTwoWaySync | internal/utils/utils.go:49-72 | after every call nothing current is given up before all that is desired is there; success ends at the desired set, undisturbed success exactly if both halves are possible, and no call if the sets agree; lvm2 is handed the two ordered differences and nothing else; the calls end with the first that fails, and its error is returned |
| Controller.Reconciler.CallNew | internal/controller/volumegroup_controller_sync.go:95-97 | adding changes only the view; undisturbed it succeeds exactly if devices and the limit in force allow it |
| Controller.Reconciler.MoveAll | internal/controller/volumegroup_controller_sync.go:134-138 | the groups met are a sequence of moves, perhaps cut off in the last (`Moving.CutRun`); on success sources are empty; undisturbed it succeeds exactly if everything fits |
| Controller.Reconciler.RemovePVs | internal/controller/volumegroup_controller_sync.go:130-143 | each removal policy: what is removed, what is kept after every call, and exactly when it succeeds undisturbed |
| Controller.Reconciler.CallOld | internal/controller/volumegroup_controller_sync.go:98-143 | removal of tags or volumes after all additions |
| Controller.Reconciler.SyncTags | internal/controller/volumegroup_controller_sync.go:85-102 | from a stale snapshot S and desired D the tags stay between them; success ends at D |
| Controller.Reconciler.SyncPVs | internal/controller/volumegroup_controller_sync.go:105-146 | after every call the volumes are between what there was and what was found selected, also on failure; success ends there; undisturbed success exactly if reachable; no mutation if settled; panics exactly if the selector does; lsblk is asked first, and the first failure, of a call or of the selector, is what is returned |
| Controller.Reconciler.SyncMaximumVolumes | internal/controller/volumegroup_controller_sync.go:162-179 | both limits as desired on success; a failure of the first leaves the second alone |
| Controller.Reconciler.SyncAllocationPolicy | internal/controller/volumegroup_controller_sync.go:182-198 | policy in snake form on success; untouched if not set or already so |
| Controller.Reconciler.SyncAutoActivation | internal/controller/volumegroup_controller_sync.go:200-218 | activation as converted on success; untouched if not set or already so |
| Controller.Reconciler.SyncName | internal/controller/volumegroup_controller_sync.go:149-159 | a rename exactly if the snapshot has another name |
| Controller.Reconciler.RunSyncers | internal/controller/volumegroup_controller_sync.go:23-44 | all six parts run one after the other whatever failed before, only a panic ends them; every error of every part is returned, in order; these are exactly the errors of the calls that failed and of the selector; what has succeeded stays reached |
| Controller.Reconciler.RepairLoss | internal/controller/volumegroup_controller_sync.go:57-66 | forced only under ForceRemove; clears the missing volumes, so the measure of the recursion falls; undisturbed it is made only if something would be changed |
| Controller.Reconciler.Sync | internal/controller/volumegroup_controller_sync.go:16-82 | ends; nil implies agreement with the specification and the selection after any number of repairs on the stale snapshot, and is returned exactly if since the last repair no call failed and the selector could be evaluated, otherwise exactly these failures are; unless the policy is Fail, loss that a call has met is answered with a repair, and nothing else is; every call permitted (only selected devices taken in, others given up last) and every state near snapshot and goal; the condition is True exactly on nil, with the reason that belongs to the outcome; quiet if settled; panics exactly if the selector does; undisturbed it succeeds exactly if `SyncSpec.Attains` (no volume missing) or `SyncSpec.LossOutcome` says so (volumes missing: not under Fail, if lvm2 can mend the group and the mended group attains the specification), and removes the missing volumes exactly if something would be changed and lvm2 can mend the group |
| Controller.Reconciler.InitializeVG | internal/controller/volumegroup_controller.go:142-159 | the new group is made from exactly the devices found selected and as the specification asks; a failed create sets the condition, a failed selection leaves it alone, and in both cases that very failure is returned; undisturbed it succeeds exactly if lvm2 can make the group |
| Controller.Reconciler.Discover | internal/controller/volumegroup_controller.go:109-119 | the snapshot reflects the group; none if the group had to be made; otherwise the call that discovery ended with is what is returned |
| Controller.Reconciler.ReportFailure | internal/controller/volumegroup_controller.go:117-119 | when discovery fails the status is stored, with the condition of a failed create or else unchanged, and both errors are returned |
| Controller.Reconciler.SyncStatus | internal/controller/volumegroup_controller_sync.go:221-292 | volumes as they are now, each once, all else from the snapshot; unchanged if they cannot be listed |
| Controller.Reconciler.RemoveFromHost | internal/controller/volumegroup_controller.go:81-102 | forced exactly if the time is past the deletion timestamp plus the grace period; while the group is there nothing is stored, so the finalizer stays; at most one removal and one update, in that order; an error is that of the last call; undisturbed the group stays exactly if it is in use or lacks volumes and the grace period is not over |
| Controller.Reconciler.Claim | internal/controller/volumegroup_controller.go:121-123 | the finalizer is stored, or the error of the failed update returned, before anything is synchronised |
| Controller.Reconciler.Report | internal/controller/volumegroup_controller.go:129-139 | whatever the synchronisation has come to, its condition is sent to the API server with the refreshed status, and every error of synchronisation, listing and update is returned |
| Controller.Reconciler.SyncAndReport | internal/controller/volumegroup_controller.go:125-139 | unless it crashes, the last call is a status update that carries the condition of what the synchronisation has come to; success means synchronised, shown and stored; undisturbed with no volume missing it succeeds exactly if the volumes can be brought in step, the limits fit what is there then, and the update meets no conflict |
| Controller.Reconciler.Reconcile | internal/controller/volumegroup_controller.go:60-140 | makes only the calls allowed for the resource it read, in its own node's name; a failed read is returned, a missing resource is not an error; how each path ends, what is stored by then and which errors are returned; exactly when it crashes; a settled group is left alone; success means the stored resource is the one that was synchronised |
| ReconcileSpec.FinalizerRemoved | internal/controller/volumegroup_controller.go:97 | our finalizer goes, the others stay in order |
| ReconcileSpec.FreshGroupIsSettled | internal/controller/volumegroup_conversion_util.go:51-84 | a freshly made group is settled exactly if its policy is unset or has no capital |
| ReconcileSpec.NothingOverwritten | internal/controller/volumegroup_controller.go:135 | a successful status update finds the very resource that was read |
| ReconcileSpec.CutOff | internal/controller/volumegroup_controller.go:60-140 | every beginning of a reconcile is a reconcile |
| ReconcileSpec.AddressesItsGroup | internal/controller/volumegroup_conversion_util.go:22-27 | every lvm2 command of a reconcile is about the group named in the specification, or else by the UID, and none renames it |
| ReconcileSpec.WithinGraceTheGroupStays | internal/controller/volumegroup_controller.go:85-95 | up to the end of the grace period a removal leaves a group in use as it is |
| Rounds.TwoRoundsSuffice | internal/controller/volumegroup_controller_sync.go:23-44 | undisturbed, the first round succeeds exactly if the limit in force admits old and new volumes together; all later ones succeed; from then on nothing is mutated |
| Rounds.CallStaysSound | internal/controller/volumegroup_controller_sync.go:85-218 | on stable devices every call a synchronisation may make, also an interrupted pvmove, leaves the specification within reach |
| Rounds.TwoRoundsFromAnyCut | internal/controller/volumegroup_controller_sync.go:16-82 | from wherever synchronisations on stable devices are cut off, two further rounds reach the specification |
| Weaving.ReconcileIsARun | internal/controller/volumegroup_controller.go:60-140 | calls that are a reconcile's as it sees them, with any steps of other nodes and any edits in between, are a run; and what the reconcile sees of it is a history its contract covers |
| Weaving.OtherIsDisturbance | internal/controller/volumegroup_controller.go:70-76 | a step of another node is, to this one, a change of other nodes' resources and nothing else |
| Fleet.RunKeepsValid | internal/controller/volumegroup_controller.go:104-139 | in every reachable state limits and capacities hold and each volume is in at most one group per node |
| Fleet.JobWasStored | internal/controller/volumegroup_controller.go:65-68 | a reconciler works only on what the store once held |
| Fleet.PlaceIsFixed | api/v1alpha1/volumegroup_types.go:30-31 | equal UIDs are one resource, and it stays on its node |
| Fleet.BystandersUntouched | internal/controller/volumegroup_controller.go:70-78 | a group that no resource asks for on that node, or asks for any more, is never changed, made or removed |
| Fleet.OnlyOnItsNode | internal/controller/volumegroup_conversion_util.go:22-27 | over any stretch in which nobody else asks for the name on another node, that node's group of the name stays as it is |
| Conservation.NothingIsLost | internal/controller/volumegroup_controller_sync.go:49-68 | without a policy that asks for force and without a read past the grace period of a deletion, no extent of a group is ever lost, in any run |
| Conservation.OnlySelectedDevices | internal/controller/volumegroup_controller_sync.go:105-146 | no group ever holds a device that was neither in it at first nor, at some time, on the node while its reconciler worked on the group's resource and selected by it |
| Finalizers.FinalizerSafety | internal/controller/volumegroup_controller.go:81-102 | once stored, the finalizer is held until the group is gone and the resource is leaving, and while the name is its own the group does not come back |
| Finalizers.NothingIsLeftBehind | internal/controller/volumegroup_controller.go:81-123 | a resource whose finalizer was stored and whose name stays its own never disappears leaving its group |
| Finalizers.ClaimedGroupExists | internal/controller/volumegroup_controller.go:109-123 | from any state in which no reconciler has seen the resource: while it holds the finalizer and is not being deleted, its group is on its node |
| Finalizers.MissingGroupIsNeverMet | internal/controller/volumegroup_controller.go:109-125 | so a reconcile that finds the finalizer crashes exactly if the selector panics |
| Resuming.UnsetIsNeverTouched | internal/controller/volumegroup_controller_sync.go:162-218 | what the specification leaves open keeps its value, or gets the default of a new group |
| Resuming.SuccessesAgree | internal/controller/volumegroup_controller.go:104-139 | two runs from the same state of a group, each ending in a reconcile that reports success, agree on tags, volumes, limits, policy, activation and finalizer, however they were cut off or repeated |
| Resuming.CutOffEndsTheSame | internal/controller/volumegroup_controller.go:104-139 | stopping after any call and reconciling to success gives what the uninterrupted run gives |
| Resuming.FinalizerStays | internal/controller/volumegroup_controller.go:121-123 | a kept resource keeps the finalizer through all runs |
| Resuming.UnclaimedGroupStaysBehind | internal/controller/volumegroup_controller.go:113-123 | a run in which a resource deleted before its finalizer is stored leaves its group, up to the next read, after which nobody asks for it |
| Resuming.RenamedGroupStaysBehind | internal/controller/volumegroup_controller.go:78-95 | a run in which a resource whose name was edited is deleted and the group of the old name remains |
| Resuming.MissingGroupCrashes | internal/controller/volumegroup_controller.go:109-125 | a host and a resource with finalizer on which an undisturbed reconcile crashes although its selector does not panic |
| Resuming.GraceRunsOut | internal/controller/volumegroup_controller.go:85-86 | a group in use, deleted at 100 with a grace period of 30, is stuck at all times up to 130 and at none after |
| Soundness.PermittedKeepsAgreement | internal/controller/volumegroup_controller_sync.go:85-218 | no permitted call takes a group out of agreement |
| Soundness.StatusIsEarned | internal/controller/volumegroup_controller.go:135 | a status update claims a generation only if the group agrees with that generation's specification and holds exactly the devices found selected |
| Soundness.SyncedIsNeverALie | internal/controller/volumegroup_synced_on_host.go:41-48 | at all times since no reconciler had seen the resource: a True condition at its present generation, while it is kept, means that its group exists on its node and agrees in tags, limits, policy and activation |
| Soundness.FreshlySyncedIsSelected | internal/controller/volumegroup_synced_on_host.go:41-48 | in the state in which that condition comes up the volumes of the group are exactly the devices selected from those the node had when that very reconcile last looked |

## Left out

- Running lsblk and decoding its JSON: the result is any finite forest of devices with columns of any type. The key
  `children` is not a column of the model.
- lvm2go and lvm2 beyond the condition and effect of each command: striping, alignment, metadata areas, the
  character sets of names and tags. `IsLVMErrVGMissingPVs` is taken to find the error among joined ones, and `VG` to return
  nil together with an error. lvm2go is not part of this model.
- Extent size, metadata size, alignment, zeroing, device lists and devices files at creation: they are copied or
  converted quantities that no synchroniser looks at.
- Quantities: `Gt` takes the parsed value as given, and none if parsing fails.
- SnakeCase.ToSnakeCaseIsPointwise: letters outside ASCII are not lowered, as the promise is about ASCII text.
- SnakeCase.Idempotent: letters outside ASCII are not lowered.
- SnakeCase.FixpointIffNoUpper: letters outside ASCII are not lowered and count as no capitals.
- SnakeCase.SnakeCaseOnlyAddsUnderscores: letters outside ASCII are not lowered.
- Condition messages and transition times; the text of errors.
- Logical volumes made, removed or resized by others while the controller runs.
- The ten-second limit of a reconcile: any call may be interrupted and any run cut off instead.
- Controller.Reconciler.SyncStatus: of the status only name, tags, limits and volume names are covered; the other
  fields are copied, and the failure of a size conversion in them is not modelled.
- Controller.Reconciler.SequentialTwoWaySync: its two callbacks are a datatype with one case for tags and one for
  volumes, since these are the only pairs the program passes.
- Conservation.NothingIsLost: a reduction under an unknown policy counts as gentle, since the code does not force it.
- Soundness.SyncedIsNeverALie: does not speak of physical volumes, since devices and selection may change after the
  update; for the state of the update `Soundness.FreshlySyncedIsSelected` does.
- Rounds.TwoRoundsSuffice: is about synchronisations; when a reconcile then reports success is
  `ReconcileSpec.CalmReport`.
