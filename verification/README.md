# Pelagia LCM: a Dafny model of OSD removal and its neighbours

Pelagia manages the life cycle of Ceph clusters that Rook runs in Kubernetes. Its most delicate
part is the removal of OSDs: a `CephOsdRemoveTask` is a persisted state machine that is entered
again on every reconcile and that, step by step, drains OSDs, purges them, wipes their disks,
deletes their deployments and drops hosts from the CRUSH map. This project models that engine, the
task list around it, the two other controllers that must stay out of its way, and seven smaller
algorithms of the same repository, and proves what they keep in every run.

`dafny verify dfyconfig.toml` checks everything.

| files | subject |
|---|---|
| `RemovalPlan`, `Executor` | the cleanup map, the answers of the cluster, one pass over the map as the class `OsdRemoval` and as the function `Pass` |
| `ExecutorInvariants`, `ExecutorPass` | what a status change, a loop and a pass keep |
| `ExecutorRuns`, `ExecutorProgress`, `ExecutorCompletion` | safety, progress and completeness over whole runs |
| `ExecutorAnswers`, `ExecutorHosts`, `ExecutorRequeue` | what the answers decide, what becomes of hosts and disks, when a pass is repeated |
| `ExecutorLostUpdates` | runs in which the status written after a pass may be lost |
| `TaskMachine`, `TaskSet` | the phases of one task, all tasks of a namespace, the deployment and infra controllers |
| `SingleOsd`, `HoldGap` | concrete runs behind the counterexamples |
| `Crush` | counting failure domains per device class |
| `Disks`, `Sorting`, `VolumeGroups` | block-device ancestry, the index of disks, grouping of ceph-volume records |
| `NodeLabels` | roles, topology, and the saved Kubernetes topology of a node |
| `ClientRotation`, `Multisite` | retention of rotated clients, references between realms, zone groups and zones |
| `RuntimeConfig`, `ConfigSplit` | runtime options kept as text, defaults and overrides, order of sections |

How the model is built:

- Every answer of a command or an API call in a pass is part of an arbitrary input (`Env`,
  `Answers`, `Api`, `Findings`), so the theorems hold for every combination of failures.
- Go iterates over maps in an arbitrary order. A pass takes an arbitrary permutation of the OSDs
  and of the hosts; the other loops over maps pick any remaining element.
- The trace of commands and observations of a removal is part of its state, together with the
  number of the pass that issued each of them. Statements about a purge, a wipe or a keyring are
  statements about that trace.
- `World` is what is persisted between passes; `IsRun` is any number of passes from a fresh
  cleanup map. `Tasks` is the task list; `IsHistory` is any sequence of reconciles, creations,
  deletions and edits of specifications from an empty list.
- Trees are finite by a rank that falls along every edge (`Acyclic`): the recursions of the
  original do not end on other inputs.

## Model

| member | source | states |
|---|---|---|
| `Executor.ClearSharedZap` | pkg/controller/osdremove-task/executor.go:522-540 | a device loses its zap flag exactly if the other OSD uses it and is not cleaned up or opted out; nothing else changes |
| `Executor.GetJobData` | pkg/controller/osdremove-task/executor.go:508-544 | reports a parallel job exactly if another OSD of the host has one running; otherwise zap stays set only where every other OSD on the disk is cleaned up, whatever the iteration order; needs every OSD to have a status, which every pass provides |
| `Executor.RunCleanupJob` | pkg/controller/osdremove-task/executor.go:546-600 | the job decision by way of the loops equals the declarative one |
| `Executor.FinishOsd` | pkg/controller/osdremove-task/executor.go:131-196 | job first, with its early exits, then the deployment of one removed OSD: the imperative step equals its specification |
| `Executor.HandleDeployment` | pkg/controller/osdremove-task/executor.go:178-192 | deployment removed, skipped, or found failed, exactly as specified |
| `Executor.HandleOsd` | pkg/controller/osdremove-task/executor.go:198-219 | one command sequence for a stray, a drained or a draining OSD, with counter and requeue flag |
| `Executor.ClearWaiting` | pkg/controller/osdremove-task/executor.go:241-243 | exactly the OSDs that waited lose their wait start time; all of them are in the map, so no status is missing |
| `Executor.RunPending` | pkg/controller/osdremove-task/executor.go:229-246 | the loop over pending OSDs with its early exit equals the specified one, in which later OSDs are left alone |
| `Executor.OsdRemoval.CollectStatuses` | pkg/controller/osdremove-task/executor.go:54-90 | every OSD without a status gets its first one, others keep theirs |
| `Executor.OsdRemoval.DropHosts` | pkg/controller/osdremove-task/executor.go:91-113 | the hosts that are due, and only they, get a remove status and a command, in the given order |
| `Executor.OsdRemoval.ProcessOsdRemoveTask` | pkg/controller/osdremove-task/executor.go:43-253 | one pass with its loops, counters and early exits computes the specification `Pass`: result, requeue flag, map and trace |
| `ExecutorInvariants.ChangeKeepsInv` | pkg/controller/osdremove-task/executor.go:119-246 | a safe status change of one OSD keeps the invariant of all: evidence behind statuses, one job per host, one rebalance, wipe rule |
| `ExecutorPass.HandledKeeps` | pkg/controller/osdremove-task/executor.go:129-219 | the four loops over finished, stray, in-progress and rebalancing OSDs keep the invariant and leave all other OSDs alone |
| `ExecutorPass.PendingLoopKeeps` | pkg/controller/osdremove-task/executor.go:224-246 | the loop over pending OSDs moves out at most one and keeps the invariant |
| `ExecutorPass.PassKeeps` | pkg/controller/osdremove-task/executor.go:43-253 | every pass, in any order and with any answers, keeps the invariant, the keys and the plan, and moves statuses forward only |
| `ExecutorRuns.RunReachable` | pkg/controller/osdremove-task/executor.go:43-253 | the invariant holds after every pass of every run |
| `ExecutorRuns.TraceGrows` | pkg/controller/osdremove-task/executor.go:43-253 | a pass only appends to the commands issued |
| `ExecutorRuns.OneZapPerDisk` | pkg/controller/osdremove-task/executor.go:508-573 | in a whole run at most one cleanup job of a host carries the wipe flag for a disk |
| `ExecutorRuns.ZapLeavesNobody` | pkg/controller/osdremove-task/executor.go:508-573 | once a disk was wiped, every other OSD on it has a completed or skipped job and none opted out of cleanup |
| `ExecutorRuns.AtMostOneAtATime` | pkg/controller/osdremove-task/executor.go:210-246 | after every pass at most one job runs per host and at most one OSD rebalances |
| `ExecutorRuns.PurgeOnlyDrained` | pkg/controller/osdremove-task/executor.go:361-505 | a purge of a non-stray OSD uses its id and follows, from strictly earlier passes, a last look at its state, then a reweight to zero if it was in, and after that a sight of no placement groups unless it was down |
| `ExecutorRuns.SeenStraySpared` | pkg/controller/osdremove-task/executor.go:305-359 | a stray whose id was seen in the cluster is never scaled down, purged, or deprived of keyring or deployment, before or after |
| `ExecutorRuns.StatusesBacked` | pkg/controller/osdremove-task/executor.go:276-405 | every status rests on the run: a finished removal on scale-down, purge and keyring deletion, successful, in order and with the OSD's own id (a stray outside the CRUSH map on a sight that its id is free, scale-down and keyring deletion), a completed job on its creation and a sight of its success, a removed deployment on its removal, a failure on something that went wrong |
| `ExecutorRuns.FinishedWasPurged` | pkg/controller/osdremove-task/executor.go:361-405 | a finished OSD that is not a stray was scaled down, purged and deprived of its keyring, in that order, under its own id |
| `ExecutorRuns.ReweightAgreed` | pkg/controller/osdremove-task/executor.go:456-495 | an OSD is reweighted only after it was seen in and, if it is up, after the cluster agreed to stop it, in the same pass |
| `RemovalPlan.CommandIds` | pkg/controller/osdremove-task/executor.go:277-280 | commands about a stray use the part of its key before the dot |
| `ExecutorHosts.HostsDroppedLast` | pkg/controller/osdremove-task/executor.go:86-113 | in every run a host is dropped at most once, only if marked and after all its OSDs were removed; it has a remove status exactly then, and the status is the answer |
| `ExecutorHosts.JobsSkippedExactly` | pkg/controller/osdremove-task/executor.go:131-162 | in every run a cleanup job is skipped exactly if it is not wanted, the node is down or its volumes unknown, the host is only dropped from CRUSH, or there is no device; a job that ran was for none of these and got the devices of its OSD, with no more to wipe |
| `ExecutorAnswers.AnswersDecide` | pkg/controller/osdremove-task/executor.go:305-438 | what a pass makes of an OSD, from its answers alone: removal succeeds exactly if all its commands do, a stray is skipped exactly if its id is in the cluster, a rebalance ends exactly without placement groups and fails exactly without an answer or after the timeout, with its start time kept, a running job ends as it was seen |
| `ExecutorAnswers.AnswersDecidePending` | pkg/controller/osdremove-task/executor.go:440-505 | a pending OSD leaves its phase only as its answers say, starts to drain at the time of the pass, and fails only without an answer, without the reweight, or if it must not be stopped and the timeout is over |
| `ExecutorAnswers.RebalanceWithinTimeout` | pkg/controller/osdremove-task/executor.go:407-505 | in every run, an OSD that is draining started in an earlier pass, whose time is its start time, and every pass that asked about it since saw placement groups left and less than the timeout gone by |
| `ExecutorRuns.RunAdvances` | pkg/controller/osdremove-task/executor.go:43-253 | the hosts, OSDs and devices of the approved map and their settings never change; statuses of OSDs move forward only, and the remove status of a host is final |
| `ExecutorRuns.FinalStays` | pkg/controller/osdremove-task/executor.go:54-85 | Finished, Skipped and Failed are final, with error and times |
| `ExecutorRuns.FailureFreezesPending` | pkg/controller/osdremove-task/executor.go:119-126 | once an OSD failed, pending ones stay exactly as they are for the rest of the run |
| `ExecutorProgress.PassProgress` | pkg/controller/osdremove-task/executor.go:43-253 | no pass raises the measure; each pass finishes, lowers it, or is blocked by a wait reported about an OSD it looks at: placement groups present, job active or not started, or stop refused while no OSD has failed or rebalances |
| `ExecutorProgress.BusyPassesBounded` | pkg/controller/osdremove-task/executor.go:43-253 | in every run the number of passes that neither finish nor meet such a wait is bounded by the measure of the approved map |
| `ExecutorRequeue.RequeueMeansProgress` | pkg/controller/osdremove-task/executor.go:97-253 | an unfinished pass asks to be repeated at once only if it lowered the measure, so the removal never spins |
| `ExecutorCompletion.FinishedMeansComplete` | pkg/controller/osdremove-task/executor.go:86-252 | finished without issues: every OSD Finished or Skipped, every job Completed or Skipped, every deployment Finished or Skipped, every marked host has a remove status |
| `ExecutorCompletion.RunFinishedMeansComplete` | pkg/controller/osdremove-task/executor.go:86-252 | the same for every pass of every run |
| `ExecutorCompletion.CompleteIsFinished` | pkg/controller/osdremove-task/executor.go:248-252 | the converse: a complete map is reported finished, without issues, unchanged and with no command |
| `ExecutorLostUpdates.RunKept` | pkg/controller/osdremove-task/controller.go:342-349 | if the status after any of the passes is lost, the persisted map and the commands of the written passes still satisfy the invariant |
| `ExecutorLostUpdates.PassSame` | pkg/controller/osdremove-task/executor.go:43-253 | the commands of a pass do not depend on its number |
| `ExecutorLostUpdates.PurgeStillDrained` | pkg/controller/osdremove-task/executor.go:361-505 | every purge of a non-stray OSD, its pass written or lost, has the evidence of PurgeOnlyDrained in persisted earlier passes |
| `ExecutorLostUpdates.RecordedStraySpared` | pkg/controller/osdremove-task/executor.go:305-359 | once a pass that saw a stray in the cluster was written, nothing of the stray is removed |
| `ExecutorLostUpdates.OnlyLostZapsRepeat` | pkg/controller/osdremove-task/executor.go:508-573 | of two orders to wipe a disk the earlier was issued in a pass whose status was lost |
| `ExecutorLostUpdates.ZapRepeatableExactly` | pkg/controller/osdremove-task/executor.go:508-573 | the pass after an order to wipe a disk can repeat it exactly if the status was lost |
| `ExecutorLostUpdates.LostZapRepeats` | pkg/controller/osdremove-task/executor.go:508-573 | a run from a fresh map in which a disk is ordered to be wiped twice |
| `TaskMachine.InitInv` | pkg/controller/osdremove-task/phase.go:38-54 | a new status starts a legal history, pending, with one condition that holds the nodes if there are any |
| `TaskMachine.AbortInv` | pkg/controller/osdremove-task/phase.go:26-36 | aborting appends exactly one empty condition, keeps the map and keeps the invariant |
| `TaskMachine.MoveKeepsHistory` | pkg/controller/osdremove-task/phase.go:56-75 | a legal phase change appends one condition equal to the new phase |
| `TaskMachine.ProcessingInv` | pkg/controller/osdremove-task/processer.go:118-133 | a pass in Processing keeps the map a descendant of the approved one, and completes only a complete map |
| `TaskMachine.AdvanceInv` | pkg/controller/osdremove-task/processer.go:30-136 | every handling of a task keeps its invariant: legal append-only history, last condition is the phase, Processing directly after WaitingOperator with the same generation and nodes |
| `TaskMachine.GatesRespected` | pkg/controller/osdremove-task/processer.go:56-136 | WaitingOperator is entered only approved, Processing only from WaitingOperator with the operator stopped, nothing changed and the last validation result, Failed only from Processing |
| `TaskMachine.ValidationTransitions` | pkg/controller/osdremove-task/processer.go:56-91 | Validating is left exactly if no deployment is known to be off hold and the health report is current; then to ValidationFailed exactly with issues, Completed exactly with nothing to do, WaitingOperator exactly if approved, and else to ApproveWaiting, with the nodes and generation of the moment |
| `TaskMachine.WaitingTransitions` | pkg/controller/osdremove-task/processer.go:92-117 | approval is looked at before changes; a change sends back to Validating, or aborts while waiting for the operator; Processing starts exactly with the operator stopped and nothing changed |
| `TaskMachine.ProcessingTransitions` | pkg/controller/osdremove-task/processer.go:118-136 | a finished pass fails the task exactly with issues and completes it with warnings exactly if there are some; a task that is over stays as it is |
| `TaskSet.GetOldestTask` | pkg/controller/osdremove-task/controller.go:159-180 | finds the first of the oldest active tasks, or none exactly if no task is active |
| `TaskSet.OldestUnique` | pkg/controller/osdremove-task/controller.go:159-180 | there is only one such task |
| `TaskSet.ReconcileOutcome` | pkg/controller/osdremove-task/controller.go:195-353 | a reconcile touches one task: deletes it exactly without a health object, aborts it with many of them if active and for an external cluster, works on it exactly if no active task is older or, as old, listed before |
| `TaskSet.HistoryKeeps` | pkg/controller/osdremove-task/controller.go:182-359 | the invariant of the task list holds after every interleaving of reconciles, creations, deletions and edits; a reconcile whose status update is lost leaves the list as it was |
| `TaskSet.OneTaskAtATime` | pkg/controller/osdremove-task/controller.go:304-313 | at most one active task is past Pending, and it is the oldest |
| `TaskSet.OneOsdDrains` | pkg/controller/osdremove-task/executor.go:210-246 | over all active tasks at most one OSD waits for rebalance |
| `TaskSet.ConditionsAppendOnly` | pkg/controller/osdremove-task/phase.go:26-75 | no reconcile rewrites or drops a condition of any task |
| `TaskSet.CompletedMeansComplete` | pkg/controller/osdremove-task/processer.go:118-133 | a task completed from Processing has all its OSDs, jobs, deployments and hosts dealt with |
| `TaskSet.CreationKeepsChoice` | pkg/controller/osdremove-task/controller.go:159-180 | a new task leaves the choice alone exactly if it is younger, or as old and listed later |
| `TaskSet.CheckLcmState` | pkg/controller/deployment/controller.go:561-621 | on hold exactly if the first deciding task holds, or is validating while the deployment is on hold or aligned; errors exactly where a call fails |
| `TaskSet.DeploymentHeld` | pkg/controller/deployment/controller.go:561-605 | in every reachable list with a task in ApproveWaiting, WaitingOperator or Processing the scan finds the hold: the early exit is ruled out by the exclusion of tasks |
| `TaskSet.HeldExactly` | pkg/controller/deployment/controller.go:561-605 | by list positions: a validating task before every holding one decides alone, otherwise any holding task holds |
| `TaskSet.UnresolvedHeldExactly` | pkg/controller/deployment/controller.go:561-605 | an unresolved failure holds the deployment unless a validating task is listed before every holding one while the deployment is neither on hold nor aligned |
| `HoldGap.UnresolvedNotHeld` | pkg/controller/deployment/controller.go:570-583 | a history, from an empty list through creation, validation, two failing passes and a newer task, that ends in a list whose unresolved failure does not hold the deployment |
| `TaskSet.DesiredReplicas` | pkg/controller/infra/operator.go:46-74 | zero replicas exactly under maintenance or, if not external, with a task waiting for the operator, processing, or failed and unresolved |
| `Crush.CountNode` | pkg/controller/health/cluster_details.go:318-335 | a bucket adds itself, if an eligible OSD of the class is below, to the counts of its children |
| `Crush.FindFirst` | pkg/controller/health/cluster_details.go:300-301 | the node looked up is the first with its id, and is found if there is one |
| `Crush.ServesKids` | pkg/controller/health/cluster_details.go:320-333 | a bucket serves a class exactly if a child does |
| `Crush.CountWithin` | pkg/controller/health/cluster_details.go:299-339 | a kind never nested in itself is counted at most as often as OSDs |
| `Crush.Counter.CountDomainsAndClasses` | pkg/controller/health/cluster_details.go:299-339 | adds to the mapping, per class and kind, the number of nodes at or below that have an eligible OSD of the class; returns exactly the classes found, once each |
| `Crush.CountCluster` | pkg/controller/health/cluster_details.go:231-239 | from an empty mapping under the first root: the declarative count, exactly the classes served, and the bound by OSDs |
| `NodeLabels.BuildCephNodeLabels` | pkg/common/cephdeployment_utils.go:59-77 | role labels are exactly the requested roles, other labels untouched, changed exactly if the map differs |
| `NodeLabels.TopologyLabels` | pkg/controller/deployment/const.go:113-123 | the Kubernetes labels are those of region and zone, all others are Rook labels |
| `NodeLabels.SetTopology` | pkg/controller/deployment/label.go:212-237 | takes over one topology key, saving an earlier Kubernetes value once; changed exactly if the map differs |
| `NodeLabels.DropTopology` | pkg/controller/deployment/label.go:239-263 | gives one topology key back; changed exactly if the map differs |
| `NodeLabels.BuildNodeLabels` | pkg/controller/deployment/label.go:210-266 | in any iteration order the labels are the ones specified, and changed is true exactly if they differ |
| `NodeLabels.BuildIdempotent` | pkg/controller/deployment/label.go:210-266 | from any labels, the result of a build is the only result of building again with the same request, so the second build reports no change |
| `NodeLabels.EmptyBuildRestores` | pkg/controller/deployment/label.go:210-266 | after any builds on a clean node, an empty build restores the original labels exactly if no region or zone that Ceph used had an empty value |
| `Disks.FindDisksExact` | pkg/disk-daemon/disk_reporter.go:140-155 | finds exactly the disks reachable through devices that are not disks |
| `Disks.SearchesAgree` | pkg/common/lcm_utils.go:36-52 | names a disk exactly for known names above which nothing branches and a disk is found, then the only one; several parents and unknown names are told apart |
| `Disks.RawDiskExact` | pkg/disk-daemon/disk_reporter.go:129-136 | a raw OSD has a disk exactly if its device lies on one, and then one of those |
| `Sorting.SortStrings` | pkg/disk-daemon/disk_reporter.go:120-128 | the strings sorted, each once |
| `Disks.DiskToOsdMap` | pkg/disk-daemon/disk_reporter.go:96-137 | a disk no raw OSD lies on lists, sorted and once each, exactly the OSDs with a volume on it; a disk on which a raw OSD lies alone lists one raw OSD and no other |
| `VolumeGroups.JudgeExactly` | pkg/disk-daemon/osds_reporter.go:36-104 | accepted exactly on one device, repeated or not, or a metadata partition, that resolves to a disk; recorded with that disk, with the device exactly if it differs, and as present exactly if its path is known; the kinds of refusal are told apart exactly |
| `VolumeGroups.PlaceVolume` | pkg/disk-daemon/osds_reporter.go:111-194 | joining or founding a group, as specified, with every stored index in range |
| `VolumeGroups.GroupVolumes` | pkg/disk-daemon/osds_reporter.go:32-195 | groups the volumes up to the first refused one, which is reported |
| `VolumeGroups.EveryVolumeOnce` | pkg/disk-daemon/osds_reporter.go:161-194 | the device entries of a group are exactly those of its volumes in order, every volume's path is among the partitions of its group, no group is empty |
| `VolumeGroups.PartitionRecorded` | pkg/disk-daemon/osds_reporter.go:98-104 | with different paths every volume is a partition of its group with its own kind, and is marked as logical and as present exactly if it is |
| `VolumeGroups.MixedExactly` | pkg/disk-daemon/osds_reporter.go:111-181 | volumes with different OSD or cluster ids share a group exactly if one of them, when placed, finds a group with another id and is a physical db without its other id, or the group lacks its other id and lists a physical or announced db |
| `VolumeGroups.IdsNeverMixed` | pkg/disk-daemon/osds_reporter.go:146-181 | with both id tags or neither on every volume nothing clashes, so no group holds different OSD or cluster ids |
| `VolumeGroups.PartialTagsMix` | pkg/disk-daemon/osds_reporter.go:146-161 | two volumes accepted on a report of two disks, one with one tag alone, that end in one group with different OSD ids |
| `VolumeGroups.GroupsAreOsds` | pkg/disk-daemon/osds_reporter.go:111-194 | for well-formed pairs, in any order, two volumes share a group exactly if one names the other |
| `ClientRotation.Int16` | pkg/controller/deployment/client.go:96-108 | the rotation label wraps around like a 16-bit integer |
| `ClientRotation.ScanRole` | pkg/controller/deployment/client.go:92-156 | finds the current client, whether one is ready, the retained rotations and the newest other ready client, up to the first legacy client; fails exactly on a label that is not a number |
| `ClientRotation.EnsureClients` | pkg/controller/deployment/client.go:35-220 | deletes exactly the present clients that no role retains and nothing asks for |
| `ClientRotation.KeptExactly` | pkg/controller/deployment/client.go:92-163 | a client with the label of a role survives exactly if its rotation is one of the keepPrevious before the expected one, or it is listed last with the expected one, or none with that is ready and it is the first of the newest ready others |
| `ClientRotation.ReadySurvivesExactly` | pkg/controller/deployment/client.go:110-163 | a role with a ready rotated client keeps one exactly if no client of the expected rotation is ready, or the one listed last is, or a retained one is |
| `ClientRotation.LastReadySurvives` | pkg/controller/deployment/client.go:110-163 | so with one client per rotation a role with a ready rotated client keeps one |
| `ClientRotation.FewClientsLeft` | pkg/controller/deployment/client.go:110-163 | a role is left with at most keepPrevious + 2 clients, one to be created included |
| `ClientRotation.TwinsLoseTheReadyOne` | pkg/controller/deployment/client.go:115-124 | two clients of the expected rotation: the only ready one can be deleted |
| `Multisite.EnsureKind` | pkg/controller/deployment/multisite.go:59-185 | succeeds exactly if every needed call does: listed resources are usable, missing ones have different names and are created, stale ones updated, unused ones removed; reports a change exactly if there is one to make; whatever fails, exactly the unused resources whose call succeeds are gone and those whose creation succeeds are there; without error the specification is met and leftovers are in use |
| `Multisite.RgwMultisite.EnsureRealms` | pkg/controller/deployment/multisite.go:59-185 | realms as above, exactly so; a present realm that is pulled needs its secret; zone groups and zones untouched, no dangling reference |
| `Multisite.RgwMultisite.EnsureZoneGroups` | pkg/controller/deployment/multisite.go:187-277 | zone groups as above, exactly so, their realms never rewritten, no dangling reference |
| `Multisite.RgwMultisite.EnsureZones` | pkg/controller/deployment/multisite.go:279-371 | zones as above, exactly so, no dangling reference |
| `Multisite.RgwMultisite.EnsureRgwMultiSite` | pkg/controller/deployment/multisite.go:34-57 | any validated specification and any failing calls: no dangling reference; if no call fails and no name is specified twice there is no error; without error the specification is met; without change only resources in use are left over |
| `Multisite.RgwMultisite.DeleteMultiSite` | pkg/controller/deployment/multisite.go:373-437 | keeps references intact under any failures, succeeds exactly if all lists and needed deletions do, then sweeps exactly what nothing listed refers to, reports removal exactly on an empty store |
| `Multisite.ThreePassesSweep` | pkg/controller/deployment/multisite.go:373-437 | three successful passes leave exactly the zones in use with their zone groups and realms, and a fourth changes nothing |
| `Multisite.NothingNeeded` | pkg/controller/deployment/multisite.go:373-437 | without object stores that is nothing |
| `RuntimeConfig.PrintRuntime` | pkg/controller/deployment/ceph_config.go:160-171 | the text has one line per option, in the order of the keys |
| `RuntimeConfig.PasswordsHidden` | pkg/controller/deployment/ceph_config.go:162-168 | the text does not depend on the passwords |
| `RuntimeConfig.PrintParse` | pkg/controller/deployment/ceph_config.go:199-207 | parsing the printed text gives its keys and the empty key |
| `RuntimeConfig.Cluster.AddObsolete` | pkg/controller/deployment/ceph_config.go:199-207 | every key of the kept text that is not configured is to be unset |
| `RuntimeConfig.Cluster.UpdateRuntimeParameters` | pkg/controller/deployment/ceph_config.go:281-330 | succeeds exactly if there is nothing to do or the dump and every needed command succeed; then every wanted option has its value, others are untouched, and a command was issued exactly if one differed; on failure each is as before or as wanted; an option is unset, never set to an empty value |
| `RuntimeConfig.Cluster.EnsureRuntime` | pkg/controller/deployment/ceph_config.go:141-279 | succeeds if the dump, every needed command and the update do; a successful pass sets present and unsets past options and keeps their keys; it issues commands exactly if an option differed |
| `RuntimeConfig.SecondPassIdle` | pkg/controller/deployment/ceph_config.go:198-212 | a second pass with the same configuration keeps the text, changes no option and issues no command |
| `RuntimeConfig.LeftoverExactly` | pkg/controller/deployment/ceph_config.go:198-212 | option by option: a configured one has its value, another one is gone exactly if it was not set or the kept text named it |
| `RuntimeConfig.NoLeftovers` | pkg/controller/deployment/ceph_config.go:198-212 | in any run, after a successful pass no option is left that is not configured exactly if every option set before it was configured or named by the kept text |
| `RuntimeConfig.RetriedPassesLeaveNothing` | pkg/controller/deployment/ceph_config.go:198-212 | so nothing is left if keys were never dropped right after a failed pass |
| `RuntimeConfig.DroppedAfterFailureStays` | pkg/controller/deployment/ceph_config.go:198-212 | a key dropped right after a failed pass stays set although the next pass succeeds |
| `ConfigSplit.ThreadPoolLimited` | pkg/controller/deployment/ceph_config.go:478-490 | the thread pool size written is the given one if it is an integer of at most 256, and else 256 |
| `ConfigSplit.AtoiDecimal` | pkg/controller/deployment/ceph_config.go:482-484 | every 64-bit integer, with or without sign, is read back from its decimal text |
| `ConfigSplit.FillDefaults` | pkg/controller/deployment/ceph_config.go:434-453 | exactly the available defaults are filled in: static and file-only ones, and all that are not for OSDs, the cluster log or a password, in the file, the others at run time |
| `ConfigSplit.TargetConfig` | pkg/controller/deployment/ceph_config.go:425-502 | static defaults survive every override in any order, and never become runtime options; every other override takes effect, unless another one aims at the same option, at run time exactly for keys of OSDs and the cluster log, OSD sections and passwords, and else in the file; the file holds no other option of the running cluster than defaults kept for it; every value has a default or an override as its source |
| `ConfigSplit.FullName` | pkg/controller/deployment/ceph_config.go:410-423 | splitting the full key gives back section and key |
| `ConfigSplit.ReorderKeys` | pkg/controller/deployment/ceph_config.go:506-524 | a permutation; priority keys first in their order, then the others in theirs |

Where the code and its comments or documentation differ, the code is followed. Results that show a
limit of the code, each with its exact condition: `HoldGap.UnresolvedNotHeld`
(`TaskSet.UnresolvedHeldExactly`), `VolumeGroups.PartialTagsMix` (`VolumeGroups.MixedExactly`),
`ClientRotation.TwinsLoseTheReadyOne` (`ClientRotation.ReadySurvivesExactly`),
`RuntimeConfig.DroppedAfterFailureStays` (`RuntimeConfig.NoLeftovers`),
`ExecutorLostUpdates.LostZapRepeats` (`ExecutorLostUpdates.ZapRepeatableExactly`), and the empty
region or zone value in `NodeLabels.EmptyBuildRestores`.

## Left out

- The nesting of the cleanup map: it is one map from pairs of host and OSD, with a map of hosts beside it. The sharing of nested maps and pointers between the old and the new remove info is not modelled.
- TaskSet.HistoryKeeps: the commands kept with a task are those of passes whose status was written. What a lost status update means for the commands is stated for one removal, in `ExecutorLostUpdates`.
- Texts and order of issues and warnings, reasons, messages and wall-clock formats: an issue is a value that says what it concerns, issues are a set, a time is an integer.
- Retries of a command: one success or failure.
- The requeue flag is computed in a pass and not used by the task list, which takes reconciles in any order.
- Validation of a task (`getOsdsForCleanup` and the files it needs): its result is an arbitrary cleanup map without statuses, with any issues.
- Cleanup jobs: only the device flags handed to them. Raw devices ignore the zap flag there, so the statements about wiping concern devices that are not raw.
- Creation of a task at the same instant as another one: histories have strictly later creation times; `TaskSet.CreationKeepsChoice` gives the exact condition for one creation.
- The Pending timeout of a refused stop: a refusal is a wait, since a repeated refusal drops the start time.
- Duplicate ids in the OSD tree and ids reached twice: the tree is taken to be a tree; `Crush` follows the first node with an id.
- Disk reports: collection from lsblk and udev, caching, and agreement of cached with fresh reports.
- Volume groups: symlinks, serials and warnings of a device; compaction of the device list in place, which also changes the kept ceph-volume record; raw OSDs of the report.
- Node annotations and the choice of roles and topology of a node before its labels are built.
- ClientRotation.EnsureClients: does not model labels, specifications and updates of the clients it keeps, nor the creation itself, because they do not decide what is deleted.
- Multisite: labels and finalizers, the steps inside one deletion (its secret and the `radosgw-admin` commands), and other writers to the store between the listing and the calls. That object names are not empty is taken for granted.
- Multisite.RgwMultisite.EnsureZoneGroups: does not bring the realm of an existing zone group in line with the specification, because the code does not either.
- RuntimeConfig: that the configuration database returns a value as it was set; the creation of the config map and passes without a running cluster, which only write the text; timestamps and hashes.
- ConfigSplit: the printed file, its hashes, and the version comparison behind the availability of a default.
- Object generators, certificates, ingress and gateway, specification analysis, pool sizing from the counts, and most of spec validation: long, and easy to state.
