# Verified model of the wellcake operator's protocols

wellcake is a Kubernetes operator for Valkey. It drives several small distributed
protocols one step per reconcile, while pods restart, clients write, gossip spreads and
Sentinels elect on their own. This project models those protocols in Dafny and proves
what every run keeps.

Each protocol is a total function `Step(state, event)` and a fold `Exec(state, events)`.
Events are the operator's own commands, with their outcome (executed, refused, reply
lost), and the moves of everything around it; an event that is not enabled changes
nothing. Theorems about runs quantify over every sequence of events. Code that loops or
updates state is written as methods: a loop is proved against a definition that does not
mention the loop, and the classes `Session`, `Operator`, `Recovery` and `Store` carry the
state the operator changes, their executed events being a run of the protocol.

| module | what it models |
|---|---|
| `Handover` | handing the Sentinel-managed master over without losing an acknowledged write |
| `ReplicationInfo` | reading the replicas' state and offsets out of INFO text |
| `Rotation` | in-place password rotation over data pods and Sentinels |
| `ScaleDown` | Cluster scale-down: the held StatefulSet size and the draining Job |
| `ClusterRollout` | shard-aware rolling restart of a Cluster |
| `Rollout` | rolling restart of a Replication set, of Sentinel data pods and of Sentinels |
| `Failover`, `Debounce` | choosing the one primary, repairing the star, waiting before acting |
| `QuorumRecovery` | taking over the slots of down primaries when the voting majority is lost |
| `Restore` | the slot map from backup manifest to restored nodes |
| `SentinelReset` | resetting Sentinels that remember dead peers, one at a time |
| `ClusterNodes`, `ShardSurvey`, `SurveyPartition` | the `CLUSTER NODES` parser, slot counting, the survey of shards and why it is accurate |
| `ConfigQuoting` | quoting a value for valkey.conf |
| `StatefulSetApply` | the hash-gated apply of a StatefulSet, and hibernation as a foreign writer |
| `Common`, `Text` | string order; the Go string functions the parsers use |

The API server, the clock, command outcomes, probe results and generated passwords are
parameters of events or methods.

## What the proofs found

The model follows the code. Where a comment in the code promises more, the exact
condition under which the promise holds is proved.

- Applying a password is described as retry-safe (internal/controller/password_rotation.go:125-138).
  Every attempt generates a fresh password, so an attempt that fails after the first
  data-pod cutover leaves a state no later attempt can leave: `Rotation.RetryCompletesIff`,
  `Rotation.StuckForever`.
- The add-new pass is said never to drop a replica link
  (internal/controller/password_rotation.go:127-130). A pod adopts the new masterauth before
  later pods accept it: from the first adoption until the last pod accepts the password some
  link is rejected, and a pass that fails in between leaves it so: `Rotation.AdoptionGap`,
  `Rotation.GapStays`.
- The saved users file is to make a cutover survive a restart
  (internal/controller/password_rotation.go:131-133). The start-up script reseeds it with
  the Secret's password, which is rewritten last: until then a restart puts the pod back on
  the old password, breaks links, and after its cutover strands it: `Rotation.RestartBreaksIff`,
  `Rotation.RestartInPassIff`, `Rotation.RestartStrands`.
- Waking from hibernation "is just" removing the annotation
  (internal/controller/valkeycluster_controller.go:795-798), but the hash gate skips the
  update unless the desired fields changed too: `StatefulSetApply.WakesIff`.
- An unhashable value is said to never match and always be updated
  (internal/controller/resources.go:239); its empty hash matches a missing or empty
  annotation: `StatefulSetApply.UnhashableAppliedIff`. Every field hashed today marshals, so
  this concerns the stated fallback only.
- The scale-down script's pipelines hide a failing query. A failed lookup reads as "not in
  the cluster" and skips the node, a failed ownership query as "owns nothing" and passes the
  gate, so the Job can succeed with slots undrained: `ScaleDown.FailedLookupOrphans`,
  `ScaleDown.FailedGateLoses`. The gate can also go stale before the deletion:
  `ScaleDown.GateHolds`, `ScaleDown.GateWindowOrphans`.
- A scale Job does not remember its target. Lowering the target under a running or finished
  Job object that does not cover it, or below nodes a scale-up added or still adds, orphans
  slots: `ScaleDown.UnsafeTargetOrphans`, `ScaleDown.StaleJobOrphans`. The conditions on size
  changes, lookups and deletions are exact: `ScaleDown.StepKeepsIff`,
  `ScaleDown.UnsafeStepOrphans`.
- The restore script hides failing queries and rejected ranges in its pipelines too, but
  here the final count catches them: `Restore.SlotMapRestored`.
- The replication rollout deletes the old primary even when promoting its successor
  failed (internal/controller/rollout.go:163-164): `Rollout.FailedPromotionDisrupts`. A set
  of one pod is never restarted: `Rollout.ProgressIff`.
- The cluster rollout reports nothing to do when the stale pods are in no surveyed shard:
  `ClusterRollout.GivesUpIff`.
- The empty-master guard sees neither a pod whose INFO failed nor the keys of one whose
  DBSIZE failed: `Failover.GuardMisses`. For the same reason it fails over a healthy star
  when the primary shows no keys and a replica shows some: `Failover.SettledStays`.
- A handover is free of loss only if the promoted replica was listed in the INFO that
  passed and the pause had not run out: `Handover.UnlistedPromotionLoses`,
  `Handover.ExpiredPauseLoses`; both happen in whole runs, `Handover.DropReached` and
  `Handover.ExpiryReached`.

## Model

| member | source | states |
|---|---|---|
| `Handover.NoWriteLost` | internal/controller/rollout_sentinel.go:302-371 | in every interleaving, a successful handover with the pause still in force at REPLICAOF and a promoted replica listed in the INFO that passed leaves that replica holding every write the old master ever acknowledged, for good, and the old master acknowledges none after |
| `Handover.UnpauseIsLast` | internal/controller/rollout_sentinel.go:317-326 | once the pause is acknowledged, every exit ends with UNPAUSE, after REPLICAOF if one was sent |
| `Handover.NothingAfter` | internal/controller/rollout_sentinel.go:367-370 | a demoted master acknowledges nothing more and no replica loses what it holds, in every continuation |
| `Handover.CaughtUpHold` | internal/controller/rollout_sentinel.go:390-412 | the catch-up check on acknowledged offsets implies every listed replica really holds every acknowledged write |
| `Handover.UnlistedPromotionLoses` | internal/controller/rollout_sentinel.go:348-366 | from any caught-up state, promoting a polled replica INFO did not list can lose any write it lacks while the handover still succeeds |
| `Handover.ExpiredPauseLoses` | internal/controller/rollout_sentinel.go:255-267 | from any caught-up state, letting the pause run out before REPLICAOF can lose a write while the handover still succeeds |
| `Handover.ExpiryReached` | internal/controller/rollout_sentinel.go:302-371 | from any quiet master, a whole run of the procedure in which the pause runs out loses any given new write and still succeeds |
| `Handover.DropReached` | internal/controller/rollout_sentinel.go:302-371 | from any quiet master with two replicas, a whole run in which one drops its link after the first check and is then promoted loses a new write and still succeeds |
| `Handover.HandoverTo` | internal/controller/rollout_sentinel.go:338-370 | any polled replica the Sentinels promote after catch-up completes the handover |
| `Handover.Session.HandOverMaster` | internal/controller/rollout_sentinel.go:302-371 | the procedure ends whatever happens meanwhile; on success its commands were pause, REPLICAOF to the promoted host, unpause, and a listed host promoted under the pause holds every acknowledged write |
| `Handover.Session.AwaitCatchUp` | internal/controller/rollout_sentinel.go:328-333 | polling ends with the check passed or the handover leaving unsuccessfully |
| `Handover.Session.AwaitPromotion` | internal/controller/rollout_sentinel.go:342-366 | polling the replicas in order ends with a promoted host or the handover leaving unsuccessfully |
| `ReplicationInfo.ReplicasLinked` | internal/controller/rollout_sentinel.go:375-386 | the loop accepts exactly an INFO with at least the wanted count whose every replica line contains the online state |
| `ReplicationInfo.ReplicasCaughtUp` | internal/controller/rollout_sentinel.go:390-412 | the loop accepts exactly an INFO with parsable counts, a count other than zero, and every replica line online at or past the master's offset |
| `ReplicationInfo.PrintedLinked` | internal/controller/rollout_sentinel.go:381 | on any printed replica line the substring test holds exactly when the state begins with "online" |
| `ReplicationInfo.PrintedCaughtUp` | internal/controller/rollout_sentinel.go:399-409 | on any printed replica line the pair parser sees exactly its state and offset |
| `ReplicationInfo.LinkedAgrees` | internal/controller/rollout_sentinel.go:375-386 | on the INFO a master prints, the text check equals the handover's own notion of linked replicas |
| `ReplicationInfo.CaughtUpAgrees` | internal/controller/rollout_sentinel.go:390-412 | on the INFO a master prints, the text check equals the handover's own notion of caught-up replicas |
| `Rotation.NothingRejected` | internal/controller/password_rotation.go:139-218 | in every state of every run no Sentinel presents a credential a pod or Sentinel rejects; from the end of an attempt's add-new pass to the end of that attempt no pod's masterauth is rejected; a running attempt can dial every party with old or new, unless it has yet to find the first pod cut over |
| `Rotation.SecretStillAccepted` | internal/controller/password_rotation.go:78-103 | after any number of attempts that failed before the first cutover, every pod and Sentinel still accepts the Secret's password |
| `Rotation.SecretWrittenLast` | internal/controller/password_rotation.go:94-103 | whenever the Secret changes, every user of every pod, live and saved, and every Sentinel already has exactly the new password |
| `Rotation.Completes` | internal/controller/password_rotation.go:43-123 | an uninterrupted attempt not stuck on an earlier cutover ends with the Secret and the token rewritten |
| `Rotation.RetryCompletesIff` | internal/controller/password_rotation.go:78-92 | a fresh attempt can complete if and only if the first pod still accepts the Secret's password, that is, no earlier attempt got as far as a cutover |
| `Rotation.StuckForever` | internal/controller/password_rotation.go:78-92 | from an attempt abandoned after a cutover, no run of any length changes a pod, a Sentinel or the Secret |
| `Rotation.RunsOnce` | internal/controller/password_rotation.go:52-55 | no token, or one already recorded, starts nothing in every run without a new request |
| `Rotation.NextAttemptIff` | internal/controller/password_rotation.go:52-119 | the token recorded is the one the attempt started with, so an annotation changed meanwhile starts the next attempt, and nothing else does |
| `Rotation.AdoptionGap` | internal/controller/password_rotation.go:177-189 | in every run, an attempt that starts with every masterauth accepted has every masterauth accepted at the c-th command on pod i exactly when i is the first pod, or the last with its replication user done; a failing command leaves the links as they are |
| `Rotation.PassLinksIff` | internal/controller/password_rotation.go:177-189 | the same without assuming the links were whole at the start |
| `Rotation.GapStays` | internal/controller/password_rotation.go:78-92 | while no attempt runs the links of a failed add-new pass stay as they are, in every run without a new attempt |
| `Rotation.RestartLinksIff` | internal/controller/resources.go:757-772 | a restarted pod is back on the Secret's password alone, so every link is accepted exactly when the other pods still present and accept it, and each other |
| `Rotation.RestartSentinelsIff` | internal/controller/resources.go:757-772 | after a restart every Sentinel is let in exactly when none has switched to the new password |
| `Rotation.RestartInPassIff` | internal/controller/password_rotation.go:177-189 | during an add-new pass that found every pod on the Secret's password, a restart keeps every link exactly when no other pod has adopted the new one yet |
| `Rotation.RestartBreaksIff` | internal/controller/password_rotation.go:139-218 | from the end of the add-new pass until the Secret is rewritten a restart keeps every link exactly when there is only one pod |
| `Rotation.RestartStrands` | internal/controller/password_rotation.go:94-103 | a pod restarting between its cutover and the Secret write ends up rejecting the password the Secret then holds, though every command of the attempt succeeds |
| `Rotation.StepKeeps` | internal/controller/sentinel.go:1055-1090 | every command on a pod or Sentinel, failing or not, keeps the protocol invariant |
| `Rotation.AddCommandAt` | internal/controller/failover.go:135-154 | an add-new command only widens what a pod accepts |
| `Rotation.CutCommandAt` | internal/controller/failover.go:126-154 | a cutover command leaves the pod accepting the new password and done users accepting nothing else |
| `Rotation.Session.ApplyPasswordToPods` | internal/controller/password_rotation.go:139-218 | the two passes and three Sentinel steps succeed exactly when every command did, and then only the Secret is left to write |
| `Rotation.Session.OnEachPod` | internal/controller/password_rotation.go:150-176 | one pass visits every pod in order and stops at the first failing command |
| `Rotation.Session.Rotate` | internal/controller/password_rotation.go:78-123 | success means the Secret holds the new password, the token is recorded and every party accepts that password; failure ends the attempt |
| `ScaleDown.NoSlotOrphaned` | internal/controller/cluster.go:650-696 | through partial and failing reshards, failing gate queries, Jobs dying anywhere, slots moving at any time and expiries, every slot always has an owner below the StatefulSet size, and the size shrinks only when no slot is owned at or above it, in every run whose size changes are safe, whose lookups do not fail on a leaving node in the cluster and whose deletions hit only nodes owning nothing |
| `ScaleDown.StepKeepsIff` | internal/controller/cluster.go:650-696 | of all steps, exactly those satisfying these three conditions keep the invariant |
| `ScaleDown.UnsafeStepOrphans` | internal/controller/cluster.go:650-696 | every step that violates one can cost a slot, with all further steps safe and no further size change; so the conditions are exact |
| `ScaleDown.UndisturbedIsSafe` | internal/controller/cluster.go:754-776 | runs with safe size changes, every query answered and no slot moved onto a node between its gate and its deletion are such runs |
| `ScaleDown.SyncKeepsIff` | internal/controller/resources.go:1073-1100 | applying the held size keeps every slot exactly when every owner is below it |
| `ScaleDown.StaleJobOrphans` | internal/controller/cluster.go:684-696 | a finished Job object surviving into a lower target loses every slot owned at or above it, with nothing moving |
| `ScaleDown.UnsafeTargetOrphans` | internal/controller/cluster.go:136-169 | after a size change that is not safe (a node at or above both sizes, a scale-up Job still adding above it, a scale-down Job object that does not cover what is above it) any slot can be lost with every further step safe |
| `ScaleDown.TargetKeepsIff` | internal/controller/resources.go:1093-1100 | a size change keeps the invariant exactly when it is safe |
| `ScaleDown.DeleteKeepsIff` | internal/controller/cluster.go:775 | a deletion that goes through keeps every slot exactly when the node owns none at that moment |
| `ScaleDown.LookupKeepsIff` | internal/controller/cluster.go:756-759 | a failed lookup keeps the invariant exactly when the node is not a leaving node of the cluster |
| `ScaleDown.FailedLookupOrphans` | internal/controller/cluster.go:756-759 | one failed lookup of a leaving node is enough: with every later query answered the Job succeeds, the size drops and any slot that node owns is lost |
| `ScaleDown.FailedGateLoses` | internal/controller/cluster.go:770-775 | after a failed gate query a deletion that goes through loses exactly the slots the node owns |
| `ScaleDown.GateHolds` | internal/controller/cluster.go:770-775 | once a node passed its gate owning nothing, exactly a slot moved onto it makes the gate stale |
| `ScaleDown.GateWindowOrphans` | internal/controller/cluster.go:770-775 | any slot moved onto the node in that window is lost if the deletion goes through |
| `ScaleDown.SlotMoved` | internal/controller/cluster.go:524-584 | a slot moved to any member, at any time, keeps the invariant |
| `ScaleDown.ScaleDownScript` | internal/controller/cluster.go:746-776 | an undisturbed attempt is a run of the protocol; it succeeds exactly when every leaving node found is deleted and, where its gate was answered, emptied; the size change that follows keeps every slot exactly when every leaving node owning slots was found and all its slots were moved |
| `ScaleDown.AnsweredAttemptKeeps` | internal/controller/cluster.go:746-776 | with every query answered, a successful attempt has moved every leaving slot |
| `ScaleDown.Leave` | internal/controller/cluster.go:754-776 | one leaving node is skipped or drained; the attempt goes on exactly when the node passes |
| `ScaleDown.Drain` | internal/controller/cluster.go:760-775 | a node found is resharded, gated and deleted, or the attempt starts over |
| `ScaleDown.ReshardAway` | internal/controller/cluster.go:760-765 | a reshard moving any of the leaving node's slots gives exactly those to pod-0 |
| `ClusterRollout.NextClusterRolloutStep` | internal/controller/rollout.go:292-349 | the decision: least stale replica of any shard, else hand over or restart the shard with the least stale primary, waiting while any pod is not Ready |
| `ClusterRollout.RolloutSafety` | internal/controller/rollout.go:353-416 | in every run at most one pod is down, the primary of a shard with replicas never is, and work done plus work left is constant |
| `ClusterRollout.ExactWork` | internal/controller/rollout.go:292-349 | a run with no stale pod left made one delete per initially stale pod and one failover per initially stale primary with replicas |
| `ClusterRollout.StaleYieldsAction` | internal/controller/rollout.go:292-349 | with every pod Ready and the shards covering all pods, a stale pod always yields a real action |
| `SurveyPartition.SurveyIsAccurate` | internal/controller/rollout.go:380-392 | the shards surveyed from a view that lists every pod once and every replica's master partition the pods, which is the accuracy the rollout theorems assume |
| `ClusterRollout.GivesUpIff` | internal/controller/rollout.go:292-349 | with every pod Ready and one stale, the decision is to do nothing exactly when no member of a surveyed shard is stale |
| `ClusterRollout.DecisionUnique` | internal/controller/rollout.go:292-349 | on an accurate survey the decision is unique |
| `ClusterRollout.RolloutTerminates` | internal/controller/rollout.go:353-416 | every run has exactly as many effective events as its rank falls plus two per failover lost, so at most three per stale pod and two per stale primary besides the losses |
| `ClusterRollout.RankFalls` | internal/controller/rollout.go:353-416 | every effective event but a lost failover lowers the rank by exactly one |
| `ClusterRollout.NotStuck` | internal/controller/rollout.go:353-416 | while a pod is stale or down some event is enabled |
| `Rollout.NextRolloutStep` | internal/controller/rollout.go:74-104 | the decision: lowest stale replica first, the primary only when nothing else is stale, waiting while any pod is not Ready |
| `Rollout.OrderFree` | internal/controller/rollout.go:74-104 | the decision does not depend on the order in which pods are listed |
| `Rollout.BestRolloutTarget` | internal/controller/rollout.go:174-193 | the first reachable replica of greatest offset among those Ready on the new revision, or none exactly when there is no such replica |
| `Rollout.SentinelDataMaster` | internal/controller/rollout_sentinel.go:162-177 | the one reachable pod reporting master; none when two do |
| `Rollout.RolloutSafety` | internal/controller/rollout.go:110-170 | in every run where promotions work at most one pod is down, never the primary, and deletes done plus stale pods left, and handovers done plus the one due, never change |
| `Rollout.DriveSentinelWorks` | internal/controller/rollout_sentinel.go:52-147 | a Sentinel-topology pass never deletes the master and keeps the same balances whichever replica is elected |
| `Rollout.ExactWork` | internal/controller/rollout.go:110-170 | a finished rollout made one delete per initially stale pod and one handover if the primary was stale |
| `Rollout.ProgressIff` | internal/controller/rollout.go:110-170 | with every pod serving and one stale, a pass deletes a pod unless the set is a lone primary, which it leaves alone |
| `Rollout.FailedPromotionDisrupts` | internal/controller/rollout.go:148-168 | after a handover pass the primary is down exactly when the promotion failed |
| `Failover.PickAuthoritativeMaster` | internal/controller/failover.go:433-441 | the loop returns the master better than every other |
| `Failover.MasterOrder` | internal/controller/failover.go:443-453 | the preference is a strict total order, so its maximum is unique |
| `Failover.Assess` | internal/controller/failover.go:309-328 | the survey loop counts the reachable pods, lists exactly the masters and finds the first replica of most keys, then offset |
| `Failover.Operator.ReconcileFailover` | internal/controller/failover.go:306-388 | every pass holds, adopts or promotes as decided, changes the pods and the marker accordingly, and sends REPLICAOF to exactly the pods to be pointed at the chosen primary |
| `Failover.Operator.PromoteReplica` | internal/controller/failover.go:458-474 | a failed promotion points no pod anywhere and keeps the primary; one that works points exactly the pods that do not follow yet and can be dialed |
| `Failover.Operator.EnforceReplication` | internal/controller/failover.go:477-496 | exactly the reachable pods not already following the primary over an up link are pointed at it |
| `Failover.ConvergesInOnePass` | internal/controller/failover.go:306-388 | from any mix of masters, chains and role-less pods, one adopting or promoting pass with working commands leaves one master and all other reachable pods replicating from it |
| `Failover.SettledStays` | internal/controller/failover.go:347-388 | once links are up another pass keeps the primary exactly when it shows keys or no reachable pod does, and then sends no command and changes nothing; otherwise it promotes a replica that shows keys |
| `Failover.EmptyMasterGuard` | internal/controller/failover.go:347-388 | whatever the survey and whichever commands fail, pods are pointed at a primary showing no keys only if no reachable pod of known role shows any; so none whose DBSIZE was read holds any |
| `Failover.GuardMisses` | internal/controller/failover.go:273-297 | a pass points a pod holding keys at a primary holding none exactly when its promotion, if any, works and a pod holding keys, whose INFO or DBSIZE failed, can be dialed and does not follow that primary already |
| `Failover.NoMasterPromotionWaits` | internal/controller/failover.go:399-414 | in every history a promotion for want of a master follows, by at least 20 seconds, a pass that found none, with no pass since seeing a master among two or more reachable pods |
| `Debounce.ActsOnlyAfterWait` | internal/controller/cluster_recovery.go:486-501 | in every sequence of passes the operator acts only at least the threshold after the pass that set the marker, with no healthy pass in between |
| `Debounce.WaitIsEnough` | internal/controller/cluster_recovery.go:486-501 | a problem that lasts the threshold with no healthy pass in between is acted on: by the pass that finds it elapsed or, where acting clears the marker, by the first to do so |
| `QuorumRecovery.CountMasters` | internal/controller/cluster_recovery.go:315-326 | the counts are the numbers of masters and of healthy masters |
| `QuorumRecovery.PickTakeoverReplica` | internal/controller/cluster_recovery.go:374-409 | the answering replica of greatest offset, or none exactly when none answers |
| `QuorumRecovery.GroupCandidates` | internal/controller/cluster_recovery.go:265-273 | under each master id stand exactly the known data pods listed as its replicas, in listing order |
| `QuorumRecovery.RecoverableShards` | internal/controller/cluster_recovery.go:259-309 | exactly the down, fenced, silent primaries with an answering replica become targets, each once, in order |
| `QuorumRecovery.TakeoverFor` | internal/controller/cluster_recovery.go:275-308 | a replica is named exactly for a down, fenced, silent primary that has one answering, and it is the most advanced |
| `QuorumRecovery.TargetsDisjoint` | internal/controller/cluster_recovery.go:259-309 | no pod appears in two targets |
| `QuorumRecovery.SlotsConserved` | internal/controller/cluster_recovery.go:191-234 | a pass keeps every slot; a slot moves only from a target's down primary to its own most advanced known replica, and slots of healthy primaries stay |
| `QuorumRecovery.EverySlotServed` | internal/controller/cluster_recovery.go:191-234 | if every down primary is recoverable and commands succeed, every slot ends on a live pod |
| `QuorumRecovery.TakeoverWaits` | internal/controller/cluster_recovery.go:100-180 | in every history a takeover happens only without a voting majority, at least 45 seconds after a pass that found the cluster stuck, with no pass since seeing it ok or recovery disabled |
| `QuorumRecovery.Recovery.RecoverShard` | internal/controller/cluster_recovery.go:191-234 | the primary is probed again, its pod deleted before the takeover, and its slots move only if every command worked |
| `QuorumRecovery.Recovery.MaybeRecoverClusterQuorum` | internal/controller/cluster_recovery.go:100-180 | a pass moves the marker as the debounce says, acts only on the chosen targets, and fences each primary before its takeover |
| `QuorumRecovery.Look` | internal/controller/cluster_recovery.go:100-150 | what a pass concludes from its view: healthy, stuck with targets, or nothing |
| `Restore.Collapse` | internal/controller/restore_assembly.go:166-180 | for every input the ranges expand to exactly the input and none can be merged with the next |
| `Restore.RangesAscend` | internal/controller/restore_assembly.go:166-180 | on ascending slots the ranges ascend with a gap between any two |
| `Restore.GapRanges` | internal/controller/restore_assembly.go:166-180 | the ranges are exactly the wanted slots not yet owned, in order, disjoint and maximal |
| `Restore.Backup` | internal/controller/backup.go:128-157 | the i-th dump and the i-th manifest line come from the same master |
| `Restore.Assemble` | internal/controller/restore_assembly.go:166-182 | an attempt with any query failing and any range rejected is a run of the protocol; it stops exactly at a line without slots, and every line without a failure ends up with all its slots |
| `Restore.OwnLineOnly` | internal/controller/restore_assembly.go:166-182 | through failing queries, rejected ranges and restarts every node keeps its dump and owns only slots of its own line |
| `Restore.SlotMapRestored` | internal/controller/restore_assembly.go:219-230 | in every run all 16384 slots are assigned exactly when every node owns what the master whose dump it loaded owned at backup, so an assembly that ends has restored the map |
| `Restore.GoodLine` | internal/controller/restore_assembly.go:166-182 | a line processed without a failure has all its slots, whatever went before |
| `Restore.RoundTrip` | internal/controller/backup.go:128-157 | backup then restore, over any number of attempts with any failures: nodes keep their dumps, no slot has two owners, and all slots are assigned exactly when the map is the one backed up, which one last attempt without failures ensures |
| `Restore.LoadedOwnLine` | internal/controller/resources.go:1630-1658 | ordinal k loads the dump of master k, so what it brings is on line k |
| `Restore.AttachReplicas` | internal/controller/restore_assembly.go:201-218 | in the list of attachments every master occurs exactly the asked number of times, in round-robin order |
| `Restore.RoundRobin` | internal/controller/restore_assembly.go:201-218 | after any number of attachments the masters' replica counts differ by at most one, the earlier ones ahead |
| `SentinelReset.PickSentinelToReset` | internal/controller/sentinel.go:805-820 | the first dirty Sentinel, and none unless all views agree on a healthy master |
| `SentinelReset.OneAtATime` | internal/controller/sentinel.go:826-850 | in every interleaving at most one Sentinel has an incomplete peer view, and resets done plus dirty Sentinels left never change |
| `SentinelReset.ResetOnlyInAgreement` | internal/controller/sentinel.go:826-850 | a reset happens only on views that all agree and while every Sentinel knows its peers |
| `SentinelReset.AgreementIsComplete` | internal/controller/sentinel.go:871-897 | views read one after the other that all agree mean no Sentinel is missing a peer now |
| `SentinelReset.PassResets` | internal/controller/sentinel.go:826-850 | any such pass resets one dirty Sentinel |
| `SentinelReset.AllCleaned` | internal/controller/sentinel.go:826-850 | from any calm state some run cleans every dirty Sentinel with exactly one reset each |
| `SentinelReset.FairRunsClean` | internal/controller/sentinel.go:826-850 | in every run, whatever happens between, as many passes started calm and with all peers known as there were dirty Sentinels clean them all, with exactly one reset each |
| `ClusterNodes.ParseClusterNodes` | internal/controller/cluster.go:988-1027 | the line loop computes the parse the round trip is proved for |
| `ClusterNodes.ParsePrint` | internal/controller/cluster.go:988-1037 | parsing undoes printing: id, flags, master, link state, pod name and stable slots come back, bracketed tokens are dropped |
| `ClusterNodes.LineRoundTrip` | internal/controller/cluster.go:993-1025 | the same for one line with any fields |
| `ClusterNodes.SlotsCount` | internal/controller/cluster.go:1172-1188 | the 32-bit sum over the tokens |
| `ClusterNodes.SlotsCountExact` | internal/controller/cluster.go:1172-1188 | for disjoint ranges the sum is the number of slots they denote |
| `ShardSurvey.SurveyShards` | internal/controller/cluster.go:1064-1100 | each shard lists its primary, slots and exactly its replicas in order, with Down, Degraded or Ready as their health says |
| `ShardSurvey.MasterPass` | internal/controller/cluster.go:1064-1082 | one shard per master, with no replica yet, and the index by id |
| `ShardSurvey.ReplicaInOneShard` | internal/controller/cluster.go:1084-1100 | a replica is in a shard exactly when that shard's master is its own |
| `ShardSurvey.ReplicasConserved` | internal/controller/cluster.go:1084-1100 | the shards together hold every replica of a listed master exactly once |
| `ConfigQuoting.ValkeyConfigArg` | internal/controller/resources.go:253-281 | the byte loop writes the quoted form the round trip is proved for |
| `ConfigQuoting.RoundTrip` | internal/controller/resources.go:253-281 | for every byte string, reading the written argument as a whole double-quoted line gives it back |
| `ConfigQuoting.Injective` | internal/controller/resources.go:253-281 | no two values are written alike |
| `ConfigQuoting.NoControlByte` | internal/controller/resources.go:271-275 | no raw control byte is written |
| `StatefulSetApply.Store.ApplyStatefulSet` | internal/controller/valkeycluster_controller.go:529-597 | the retry loop leaves the stored object as specified, keeps what others wrote, and writes exactly when the hash differs and an attempt lands |
| `StatefulSetApply.GatedRefinesUnconditional` | internal/controller/valkeycluster_controller.go:529-597 | in every run where nobody else writes the reconciled fields, the gated apply leaves the same fields as an unconditional one |
| `StatefulSetApply.LiveIsDesired` | internal/controller/valkeycluster_controller.go:567-592 | after every successful pass the live fields are the desired ones, and the rest is what others last wrote |
| `StatefulSetApply.SameDesiredNoWrite` | internal/controller/valkeycluster_controller.go:572-577 | asking again for the fields just applied writes nothing, whatever the status did meanwhile |
| `StatefulSetApply.WakesIff` | internal/controller/valkeycluster_controller.go:795-812 | in every run, however often hibernated before, a pass after hibernation brings the desired fields back exactly when they are not the ones the annotation stands for, or those had no replicas |
| `StatefulSetApply.SomeApplied` | internal/controller/valkeycluster_controller.go:529-597 | in every run, hibernations included, a stamped object carries the hash of fields some pass applied, and its fields are those or what hibernation left of them |
| `StatefulSetApply.PassRestoresIff` | internal/controller/valkeycluster_controller.go:572-584 | a pass over such an object leaves the desired fields exactly when they are not the applied ones, or those are in place |
| `StatefulSetApply.UnhashableAppliedIff` | internal/controller/resources.go:236-243 | unhashable desired fields that differ are applied exactly when the live object carries a non-empty annotation |

## Left out

- Kubernetes client plumbing, owner references, watches, finalizers, metrics, TLS and dialing: the API is plain state with landing or failing writes, a pod is reachable or not.
- Valkey's own gossip, elections and replication stream beyond the events named in each module; in a handover, full resynchronisation, re-pointing of the other replicas and a second election are not modelled.
- Rotation.NothingRejected: says nothing of replica links during an add-new pass or after one that failed, because some are rejected then (`Rotation.AdoptionGap` says exactly when), nor of runs with pod restarts, whose effect at each point the `Restart` lemmas state; the ConfigMap is taken to carry the Secret's password.
- Rotation.Completes: an attempt is not stuck on an earlier cutover, because otherwise it cannot complete (`Rotation.RetryCompletesIff`).
- ScaleDown.NoSlotOrphaned: size changes are safe, no lookup fails on a leaving node in the cluster and no deletion goes through on a node owning slots, because the code ensures none of these; the orphaning lemmas show what happens otherwise. Whether valkey-cli refuses to delete a node that owns slots is not part of this model: a refusal is a failed deletion.
- QuorumRecovery.TargetsDisjoint: node ids and known pod names are each listed once; a view that still lists a pod under an old id beside its new one is not covered.
- QuorumRecovery.SlotsConserved: the same.
- QuorumRecovery.EverySlotServed: the same.
- Rollout.RolloutSafety: promotions the operator attempts succeed, because the code deletes the old primary regardless (`Rollout.FailedPromotionDisrupts`).
- Restore.RoundTrip: single-StatefulSet layout, same shard count, every master owning slots and no migration in flight; the manifest is a value rather than text, `sort -n` is the identity on ascending slots, and a node's view before MEET is its own.
- Debounce.ActsOnlyAfterWait: status-marker patches land, and times are whole seconds.
- StatefulSetApply.GatedRefinesUnconditional: the hash has no collisions and Create succeeds.
- Per-shard StatefulSets (internal/controller/cluster_pershard.go): its script takes pod-0 of a leaving shard to be its master, so the slot claim is not decided there.
- Manual failover, repair of misplaced Sentinel data pods, Sentinel timings and the bootstrap and reshard Jobs: easier relatives of what is proved.
- Sorting in the rollout decisions is a minimum scan, since only the first element is used.
- Script, Job, Service and policy text, thread utilisation, certificate fingerprints, webhooks, conversions and cmd/.
