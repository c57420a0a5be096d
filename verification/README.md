# A verified model of rdsync

rdsync keeps a Valkey shard available: one process per host watches it, one of them (the
manager) fails the master over, and all of them share a small state in ZooKeeper. This
project models the logic that must not be wrong in that system and proves what it promises.

- **The failover protocol.** Three values belong together: the list of active hosts `A` in
  the DCS, the master's quorum replicas `Q`, and the number `k` of them that must acknowledge
  a write before `WAITQUORUM` answers. `FailoverProtocol` is a state machine of the shard (any
  host writes, streams, resynchronises, acknowledges, loses its link) interleaved with every
  effect of the switchover procedure, including a manager that crashes, resumes, fails and
  starts over. `FailoverInvariant` and `FailoverSafety` prove an inductive invariant and, from
  it, that no acknowledged write is lost. `Switchover` is the procedure itself as an
  imperative class whose every effect is an enabled action of that machine, and
  `FailoverPremises` ties the machine to the two modules it takes its premises from.
- **The quorum beneath it.** `Quorum`, `ActiveNodes`, `UpdateActive` and `Repair` cover the
  ways `A`, `Q` and `k` change; `WaitQuorum` is the patched server's counting and releasing.
- **Choosing a new master.** `Psync` is a model of replication ids and backlogs that says what
  the partial-resync test means; `Selection` is the choice built on it.
- **The senticache.** `SentiText` (text), `SentiCache` (server), `SentiCacheUpdate` (one
  update) and `SentiCacheNode` (client) cover the command from Go to C, `SentiCacheEdges`
  what the server refuses or forgives; `CacheUpdate` is what it is built from.
- **Without the DCS.** `LostMode`, `PingWindow`, `ZkPath`, `HostProvider`.

`HostStates` and `Wrappers` hold shared types. Run `dafny verify dfyconfig.toml`.

## What durability rests on

The failover theorems are proved for the hypotheses of `FailoverProtocol.Trust`, which the
code relies on without checking. Each is necessary: `FailoverCounterexamples` has, for each, a
run that loses an acknowledged write when it alone is given up.

- `trueSnapshots`: phase 3 reads the true offset of every host it has just stopped. A probe
  that fails answers with cached INFO (internal/valkey/node.go:481), so this can fail. A
  snapshot is taken at one moment, and phase 4 compares no offset cached before it began.
- `linksStayDown`: a host whose pause was skipped because its link was reported down
  (internal/app/switchover.go:226-229) really is down then and does not get its link back
  before the promotion.
- `staysStopped`: until the promotion, the daemon of a host that the attempt counts as stopped
  does not repair it. Nothing prevents that: a paused host whose daemon loses ZooKeeper for a
  moment is set offline (internal/app/lost.go:62-85), and on its return `repairLocalNode` finds
  it stale and resumes it (internal/app/candidate.go:55, internal/app/repair.go:289-310).
  Hosts that no attempt counts on are repaired by their daemons at any time.
- `repointFirst`: the manager resumes a stopped host only when its new source is in place. The
  code resumes it even when the command that should have repointed it has failed
  (internal/app/repair.go:111-153).
- `recentAnswers`: a resumed run that sees the recorded most recent host and the new master
  at the same offset has read the former truly. Otherwise the catch-up is skipped
  (internal/app/switchover.go:307) although there is something to catch up with. A resumed run
  that sees different offsets need not have read either of them truly.
- `quietAfterwards`: links stay down and hosts stay stopped after the promotion as well. Only
  what is acknowledged after the promotion needs it: `Durability` holds without it for every
  write acknowledged before the first promotion, and `LateLinkMisses` shows that a later one,
  given by an old master that is still open, can be missing.

`linksStayDown` and `staysStopped` are asked of a failed attempt's hosts until an attempt starts
afresh. The epoch starts with one history: every log is a prefix of the master's, every other
host is a read-only replica of it. A first or restarted attempt (a record without progress)
begins with no replica ahead of its source, all hosts but the master read-only, the active list
unchanged, and no host but the old master able to have written. So a restart after the new
master has been opened, which a failure late in phase 6 leads to
(internal/app/switchover.go:66-76), is outside every theorem here; resumed runs, whose record
still has its progress, are not. `m` is in `A`, `Q` is within `A` without `m`, `k` is at least
half of `A`, data loss is not allowed, no switchover is forced, and the target is not the present
master. One manager runs at a time. The acknowledgement the old master remembers for a replica is
dropped when that replica is repointed. The acknowledged offset is the count
`WaitQuorum.CountedHosts` justifies: one acknowledging connection per host name. Probes report
what `Psync` says INFO can report (`Switchover.Honest`).

What a run needs to succeed is `Switchover.App.Unhindered`, in terms of how hosts and the DCS
answer (`Switchover.Answers`); everything else these theorems say, they say of failing runs too.

## What turned out not to hold

- A blocked `WAITQUORUM` client can be released by acknowledgements that its quorum never
  gave: the branch for plain clients (valkey_patches/0004_Add_waitquorum_command.patch:306-308)
  does not exclude it. `WaitQuorum.EarlyReleaseExact` says exactly when.
- Between writing a smaller active list and the smaller quorum set, a failover can miss an
  acknowledged write. `ActiveNodes.RemovalWindowExact` is the exact condition;
  `ActiveNodes.DropOneHost` shows that dropping one host is safe for an even number of
  active hosts only.
- `getMostDesirableNode` may name nobody without an error; `Selection.GetMostDesirableNode`
  says when.
- `buildFullPath` of a text without any part is empty, not a separator:
  `ZkPath.BuildFullPath` gives it as the rendering of no parts.
- A senticache keeps a master name or address that differs from the target only in case
  (`SentiCacheUpdate.SpellingExact`), and a replica that is not announced is not listed and so
  never deleted while the master stays (`SentiCacheUpdate.ReplicasExact`).
- `checkHAReplicasRunning` can pass for two masters if one replica counts for both
  (`LostMode.StaleListSplits`).

## Model

| member | source | states |
|---|---|---|
| FailoverSafety.Durability | internal/app/switchover.go:136-332 | In every run, what WAITQUORUM had returned for by any moment before the first promotion is in the log of a committed new master, through crashes, resumed runs and later writes; so is what it returns for afterwards, if stopped hosts stay stopped. |
| FailoverSafety.PromotionIsSafe | internal/app/switchover.go:430-451 | Every promotion command, before anybody has been let go, names a host that holds every acknowledged entry. |
| FailoverSafety.Fencing | internal/app/switchover.go:219-250 | Once a failover quorum is stopped, the logs of the stopped hosts stand still and some stopped host holds all that is or ever will be acknowledged, whatever the shard and the daemons of other hosts do. |
| FailoverSafety.InvariantHolds | internal/app/switchover.go:136-519 | The invariant survives every run of shard actions, daemon repairs, phases, crashes, failures and new attempts, up to a restart after the new master has been opened. |
| FailoverSafety.Step | internal/app/switchover.go:136-519 | One action of any kind keeps the invariant. |
| FailoverSafety.InitStep | internal/app/active_nodes.go:163-199 | A settled shard satisfies the invariant. |
| FailoverSafety.SelfRepairStep | internal/app/repair.go:289-310 | A daemon that resumes or repoints its own host, which no attempt counts on, keeps the invariant. |
| FailoverSafety.CommittedHolds | internal/app/switchover.go:336-346 | Once phase 5 is recorded, the new master holds every acknowledged entry. |
| FailoverSafety.AcknowledgedStaysRun | valkey_patches/0004_Add_waitquorum_command.patch:201-251 | The old master's log and the acknowledged part of it never shrink. |
| FailoverSafety.ProgressOnly | internal/app/switchover.go:139-150 | Within an attempt the persisted phase is non-decreasing in {1,3,5,6} and the chosen hosts never change from phase 3 on. |
| FailoverSafety.OneNewMaster | internal/app/switchover.go:432-460 | Every promotion and every write of the DCS master in an attempt names the host the record names at its end. |
| FailoverSafety.FinishedWasNamed | internal/app/switchover.go:336-346 | Every finished attempt has written its new master into the DCS after its phase 5 was recorded and before its phase 6 was. |
| FailoverSafety.RunIsTold | internal/app/switchover.go:343-346 | At every point of every run: an attempt whose phase 6 is on record has named its new master in between. |
| FailoverSafety.NameStays | internal/app/switchover.go:343-346 | Once named, the new master stays in the master key while the attempt lasts, unless a repair of the key by the shard changes it. |
| FailoverSafety.WriteOpening | internal/app/switchover.go:390-399 | A second host becomes writable only on a committed plan, holding every acknowledged entry, and in phase 6 only when the DCS list is the psync set and k covers half of it. |
| FailoverSafety.OpeningActions | internal/app/repair.go:56-82 | The only three effects that make any host writable, and the manager's state at each. |
| FailoverPremises.AnsweredSurvives | valkey_patches/0004_Add_waitquorum_command.patch:225-251 | From the patched server's answer, immediate or by releasing a client that is not shadowed, to the new master's log: on a shard the transition has settled, whatever is promoted after an answer holds everything up to the answered offset. |
| FailoverPremises.AnswerIsAcknowledgement | valkey_patches/0004_Add_waitquorum_command.patch:236-241 | Either kind of answer is an acknowledgement the protocol allows. |
| FailoverPremises.InsideIsValid | internal/app/active_nodes.go:113-161 | The configurations the protocol is proved for are exactly those the transition is proved to keep. |
| FailoverInvariant.SnapshotBoundsAcked | internal/app/switchover.go:252-264 | The largest offset of the phase 3 snapshot bounds every acknowledged write, because a stopped host holds it. |
| FailoverInvariant.AcknowledgedOnPlan | valkey_patches/0004_Add_waitquorum_command.patch:225-251 | What the old master still acknowledges after the decision was held by a frozen host or is held by the new master. |
| FailoverInvariant.ChooseStep | internal/app/switchover.go:258-302 | The decision of phase 3 starts a plan that keeps the invariant. |
| FailoverInvariant.RepointStep | internal/app/switchover.go:307-324 | Pointing the new master at the most recent host keeps the plan. |
| FailoverInvariant.PromoteStep | internal/app/master.go:176-209 | A promotion, early or late, forks the history no lower than what is acknowledged. |
| FailoverInvariant.OpenEarlyStep | internal/app/switchover.go:373-381 | Opening a lone survivor before the promotion keeps the invariant. |
| FailoverInvariant.OpenWritesStep | internal/app/repair.go:74-82 | Opening the new master in phase 6 keeps the invariant. |
| FailoverInvariant.TurnUnited | internal/app/switchover.go:402-431 | Turning a partially resyncable host before the promotion keeps the invariant. |
| FailoverInvariant.TurnForked | internal/app/switchover.go:507-518 | Turning hosts after the new master has written keeps what it holds. |
| FailoverCounterexamples.StaleSnapshotLoses | internal/app/switchover.go:254-257 | A run in which the host with the largest log is read at an old offset promotes a host without an acknowledged entry. |
| FailoverCounterexamples.ReturningLinkLoses | internal/app/switchover.go:226-229 | A run in which a skipped host's link returns before the promotion does the same. |
| FailoverCounterexamples.BlindResumeLoses | internal/app/repair.go:111-153 | A run in which a host is resumed although repointing it has failed does the same. |
| FailoverCounterexamples.UnreachableRecentLoses | internal/app/switchover.go:304-324 | A resumed run that reaches neither recorded host does the same. |
| FailoverCounterexamples.SelfRepairLoses | internal/app/repair.go:289-310 | A run in which the daemon of a stopped host resumes it does the same. |
| FailoverCounterexamples.LateLinkMisses | internal/app/switchover.go:226-229 | A run in which a skipped host returns to the old master after the promotion ends with an acknowledged entry the new master lacks. |
| Switchover.App.Tick | internal/app/manager.go:72-113 | A finished switchover leaves a master that holds every acknowledged entry, an active list of hosts whose logs it extends, and a DCS that was told of it between phases 5 and 6 of the attempt; where hosts obey, that master is open behind a large enough k and the reachable hosts follow it. A tick that nothing hinders finishes. Any outcome is one a legal run leads to. It starts from a record no run has touched, one in progress, or a reset one of a shard that has not been opened elsewhere. |
| Switchover.App.PerformSwitchover | internal/app/switchover.go:136-519 | Every effect is an enabled action; a recorded new master is never replaced; success means phase 6, the master key written in this attempt (in this run unless phase 6 was on record), promoted, the active list is exactly what one probe finds able to follow, and its reachable hosts follow the new master, which takes writes if it obeys. It succeeds if enough hosts answer and obey, the new master is requested, selectable or on record and linked, and the DCS takes every write. |
| Switchover.App.Start | internal/app/switchover.go:139-162 | The record enters phase 1 or is resumed; the needed number is that of the whole list; the fenced list drops a failed master. |
| Switchover.App.CloseAll | internal/app/switchover.go:164-189 | Exactly the listed hosts that answer and do not fail are returned, and all of them are read-only. |
| Switchover.App.StopAll | internal/app/switchover.go:217-241 | Every listed host that answers and obeys counts as stopped, no other but answering ones do, none of them can move any more, and a pause is skipped only where the link is not seen up. |
| Switchover.PassedBoth | internal/app/switchover.go:240-246 | The alive list is the hosts that passed both phases, without duplicates. |
| Switchover.App.FenceHosts | internal/app/switchover.go:164-250 | Success means at least the failover quorum of hosts is read-only and stands still, among them all that obeyed, and an answering old master in the list is read-only; it is certain when enough hosts obey, the old master closes or is silent, and the poison pill can be handled. |
| Switchover.App.TakeSnapshot | internal/app/switchover.go:252-257 | A snapshot of all hosts, true where the hypotheses say so. |
| Switchover.App.SelectHosts | internal/app/switchover.go:259-302 | A resumed run keeps the record and goes on; a first one records a host with the largest offset and a new master other than the old one, which is the requested or the selected host wherever one can be taken, or resumes every fenced host that obeys and fails. |
| Switchover.App.ChooseHosts | internal/app/switchover.go:263-302 | A first run records a host with the largest positive offset, or none when all are zero, and the requested or selected new master if there is one; it gives up when nothing is to be compared with, resuming every host that obeys. |
| Switchover.App.PickMaster | internal/app/switchover.go:264-292 | The requested host; else the one the selection names, and none without a most recent host; else the most recent one. |
| Switchover.App.CatchUp | internal/app/switchover.go:304-324 | Success means equal offsets, or the most recent host paused and the new master pointed at it and caught up; the other stopped hosts stay as they are. It is certain when commands are obeyed, waits end in time and the link of the new master can come up. |
| Switchover.App.ChangeSource | internal/app/master.go:93-134 | Success means the new master replicates from the most recent host; it is certain, and leaves the new master resumed, when commands are obeyed in time. |
| Switchover.App.WaitForCatchup | internal/app/master.go:136-174 | Success means the new master had an offset, read or cached since phase 4 began, no smaller than one the most recent host had then; it is certain when the link can be up and copies in time. |
| Switchover.App.CompareOffsets | internal/app/master.go:140-169 | One comparison, in which either offset may come from the cache, ends phase 4 only when the new master is not behind. |
| Switchover.App.SaveAndName | internal/app/switchover.go:336-346 | Success means phase 5 is on record and then, in this run, the DCS master is written with the new master. |
| Switchover.App.LimitWrites | internal/app/switchover.go:372-400 | Only a lone survivor is opened early, and it is; k becomes half of the alive hosts. |
| Switchover.App.PromoteHost | internal/app/switchover.go:334-454 | Success means the DCS names the new master, k is half of the alive hosts, and the new master has no source; with other survivors it is still read-only if it was. With TurnBeforeSwitchover and a paused new master, every reachable alive host that one probe finds able to follow it has been turned to it first. It succeeds when commands are obeyed in time. |
| Switchover.App.TurnEarly | internal/app/switchover.go:402-431 | Every reachable alive host that one probe finds able to follow the paused new master is turned to it, if hosts obey. |
| Switchover.App.Conclude | internal/app/switchover.go:326-519 | Phases 5 and 6: success means the attempt has named its new master, promoted it, listed what one probe finds able to follow and turned the reachable of those. |
| Switchover.App.PsyncHosts | internal/app/switchover.go:464-472 | Exactly the alive hosts for which isPartialSyncPossible says yes on one probe of the shard, and each is a replica whose log is a prefix of the new master's. |
| Switchover.MirroredPsync | internal/app/lag.go:20-38 | On states as INFO gives them, a yes means a replica that is behind. |
| Switchover.SomethingMirrors | internal/app/state.go:45-93 | Such states exist for any logs. |
| Switchover.App.RepairMaster | internal/app/repair.go:56-89 | The new master becomes writable only with k at half of the DCS list or more; one that obeys is open, resumed and behind such a k afterwards. |
| Switchover.App.TurnReplicas | internal/app/switchover.go:507-518 | Success, or hosts that obey, means every reachable listed host replicates from the new master; nothing else about them changes. |
| Switchover.App.ListPsyncHosts | internal/app/switchover.go:456-483 | The active list is the new master and exactly the alive hosts that one probe says can take a partial resync from it. |
| Switchover.App.ResumeAll | internal/app/switchover.go:270-285 | Afterwards no listed host that answers and obeys is paused. |
| Switchover.App.TurnPhase | internal/app/switchover.go:456-519 | Phase 6 on record, then the list that one probe gives, then writes, then every host of the list that is reachable. |
| Switchover.FilterOut | internal/app/switchover.go:127-134 | Set difference that keeps a duplicate-free list duplicate-free. |
| Quorum.FailoverQuorum | internal/app/failover.go:22-28 | Half the hosts and the failover quorum add up to all hosts. |
| Quorum.AckMeetsFailover | internal/app/master.go:11-13 | Every acknowledging set meets every failover set. |
| ActiveNodes.ActiveNodesEqual | internal/app/active_nodes.go:90-101 | A length test and one inclusion decide equality of sets when the target has no duplicates. |
| ActiveNodes.HasAddedActiveNodes | internal/app/active_nodes.go:103-111 | True exactly when the target is not contained in the old list. |
| ActiveNodes.ActiveNodesIntersection | internal/app/active_nodes.go:78-88 | The intersection, duplicate-free when the left list is. |
| ActiveNodes.Shard.ApplyTransition | internal/app/active_nodes.go:113-161 | After every operation, failed or not, k covers the list; every acknowledging set meets every failover set except in the removal window; a completed transition has arrived from anywhere, and one whose operations are answered completes; a repeat changes nothing. |
| ActiveNodes.Shard.Ticks | internal/app/active_nodes.go:163-199 | Any number of half-failed transitions keep k large enough, and the first completed one arrives. |
| ActiveNodes.InsideIsSafe | internal/app/active_nodes.go:113-161 | Q within A and k at least half of A make the two kinds of sets meet. |
| ActiveNodes.RemovalWindowExact | internal/app/active_nodes.go:151-160 | In the removal window the sets meet if and only if k less the lost members of Q still covers half of the new list. |
| ActiveNodes.RemovalWindowMissed | internal/app/active_nodes.go:151-154 | Otherwise, the two disjoint sets. |
| ActiveNodes.DropOneHost | internal/app/active_nodes.go:151-160 | Dropping one host from a settled shard is safe there if and only if the number of active hosts was even. |
| ActiveNodes.RemovalWindowCloses | internal/app/active_nodes.go:155-157 | The next operation closes the window. |
| UpdateActive.CalcActiveNodes | internal/app/active_nodes.go:201-257 | For every map order, on the fields of the snapshot: no duplicates; the master exactly if it is in the shard; a silent host exactly if it was listed and is healthy in the DCS or failed recently; an answering one behind a stable master exactly if it is a replica with its link up that the master names or that names the master; behind any other, exactly if it is a replica. |
| UpdateActive.UpdateActiveNodes | internal/app/active_nodes.go:163-199 | Success settles the shard on that set and is certain when every operation is answered; k never falls behind the list. |
| Repair.Master.RepairMaster | internal/app/repair.go:56-89 | Writes are opened only behind a large enough k, which is never lowered, and are when commands are answered; then no failover of the list can miss an acknowledged write if the quorum replicas are listed. |
| Repair.Master.BringOnline | internal/app/repair.go:256-352 | A local master goes online only if no active host is ahead and k covers half of the list it read, and does so when everything is answered; then no failover of that list can miss an acknowledged write if the quorum replicas are listed. |
| Repair.SomebodyAhead | internal/app/repair.go:262-283 | Exactly whether an active host has a greater offset. |
| Repair.OpenedIsSafe | internal/app/repair.go:326-345 | With its quorum replicas listed, a large enough k makes every acknowledging set meet every failover set. |
| WaitQuorum.CountedHosts | valkey_patches/0004_Add_waitquorum_command.patch:199-214 | The count of connections is never below the number of quorum hosts holding the offset, and equal to it when names are distinct. |
| WaitQuorum.CountAntitone | valkey_patches/0004_Add_waitquorum_command.patch:199-214 | A larger offset is acknowledged by no more connections. |
| WaitQuorum.QuorumReleaseIsExact | valkey_patches/0004_Add_waitquorum_command.patch:277-335 | A blocked client whose quorum has acknowledged is released, and any other only behind a plain WAIT. |
| WaitQuorum.EarlyReleaseExact | valkey_patches/0004_Add_waitquorum_command.patch:303-308 | A WAITQUORUM client can be released without its quorum if and only if a plain WAIT at the same or a later non-zero offset stands earlier in the list. |
| WaitQuorum.ShadowedIsReleasedEarly | valkey_patches/0004_Add_waitquorum_command.patch:306-308 | The replica state in which it happens. |
| WaitQuorum.RememberedTruly | valkey_patches/0004_Add_waitquorum_command.patch:322-335 | Every remembered count is the true count of its kind at its remembered offset. |
| WaitQuorum.CountIsSize | valkey_patches/0004_Add_waitquorum_command.patch:199-214 | Each count is the number of online connections that have acknowledged the offset, have it in their append-only file, or have acknowledged it and belong to the quorum. |
| WaitQuorum.PlainReleaseIsExact | valkey_patches/0004_Add_waitquorum_command.patch:303-320 | A plain or AOF client is released if and only if the count of its kind is reached. |
| WaitQuorum.ReplyIsCount | valkey_patches/0004_Add_waitquorum_command.patch:303-335 | A released client is told a true count of its kind at an offset no smaller than its own, no less than it waits for; only a shadowed WAITQUORUM client may be told a plain one. |
| WaitQuorum.Server.UpdateQuorumReplicas | valkey_patches/0004_Add_waitquorum_command.patch:253-281 | Every connection's flag says whether it is online and configured; nothing else changes. |
| WaitQuorum.Server.SetConfigQuorumReplicas | valkey_patches/0004_Add_waitquorum_command.patch:81-100 | The configured set and all flags follow a list without repetitions at once; a repetition is an error that moves no flag. |
| WaitQuorum.Server.WaitQuorumCommand | valkey_patches/0004_Add_waitquorum_command.patch:223-251 | An answer of at least the configured number means that many quorum hosts hold the offset; a smaller one is only given where blocking is not allowed; otherwise the client waits; a replica refuses. |
| WaitQuorum.Server.ProcessClientsWaitingReplicas | valkey_patches/0004_Add_waitquorum_command.patch:283-341 | Who is released, who stays, and what each is told: no less than it waits for, no more than the count of its kind at its offset, and the count at some offset no smaller; exact for every client but a WAITQUORUM one behind such a plain WAIT, which may be told a plain count. |
| Psync.PsyncSound | internal/app/lag.go:20-38 | In every run, a yes for a replica and a master seen at any two moments means the replica's log was a prefix of the master's. |
| Psync.CanPsyncExact | internal/app/lag.go:29-36 | Within one replication id the answer is exact: a replica whose log is a prefix and whose next byte is in the backlog or right behind it. |
| Psync.CanPsyncAcross | internal/app/lag.go:25-36 | Across a promotion it is exact as well: a prefix of what the two ids share; under any other id the answer is no. |
| Psync.ReportedPsyncIsPrefix | internal/app/lag.go:20-38 | On two probes of one shard, a yes means a replica whose log is a prefix. |
| Psync.PromotionKeepsPsync | internal/app/switchover.go:464-472 | Of the replicas it could take back before its promotion, a host can take back exactly those that share its id. |
| Psync.StepKeeps | internal/app/lag.go:29-36 | Writing, streaming, partial and full resync, promotion and demotion keep the meaning of ids and second offsets. |
| Selection.FindMostRecentNode | internal/app/lag.go:40-51 | A host with the largest positive offset, or nobody when there is none. |
| Selection.GetMostDesirableNode | internal/app/lag.go:53-101 | For every map order: the named host never has the prefix of the host switched away from, and is the most recent host or can be partially resynced from it; among all such hosts it is lexicographically maximal in priority and offset. It fails exactly when there is no such host or one lacks a configuration, and names nobody exactly when none stands above (0, 0). |
| Selection.EligibleIsBehind | internal/app/lag.go:53-73 | Every eligible host holds a prefix of the most recent host's log. |
| Selection.OffsetIsLogLength | internal/app/lag.go:8-18 | The offset of an answering host is the length of its log; a silent or unknown host counts as zero. |
| SentiText.ParsePrint | internal/valkey/senticache.go:336-384 | The printed command is parsed back to exactly its keys and values, ending where a key may start. |
| SentiText.SplitJoin | valkey_patches/0005_Add_senticache.patch:1201-1216 | Splitting what was joined gives the fields back, empty ones included. |
| SentiText.StrtolPrint | valkey_patches/0005_Add_senticache.patch:1443-1454 | Printed numbers are read back. |
| SentiCacheUpdate.Senticache.CacheUpdate | valkey_patches/0005_Add_senticache.patch:1602-1675 | The index-based parser applies exactly the pairs of the text, in order, up to the first failure, and answers OK only at a key start. |
| SentiCache.FailureDecides | valkey_patches/0005_Add_senticache.patch:1645-1652 | A failing pair decides the outcome whatever follows. |
| SentiCacheUpdate.ItemsApply | valkey_patches/0005_Add_senticache.patch:1233-1600 | Every item of an update succeeds and together they lead to one final state. |
| SentiCacheUpdate.FinalMatches | internal/valkey/senticache.go:342-379 | That state is the target: master, spec, sentinel names, replicas with all fields, for every prior cache. |
| SentiCacheUpdate.ReplicasExact | valkey_patches/0005_Add_senticache.patch:1163-1180 | The replicas are the target's if and only if the master moved or no unlisted replica outside the target was held. |
| SentiCacheUpdate.AnnouncedStaysListed | internal/app/cache.go:55-77 | Updates that announce everything can follow one another and match exactly. |
| SentiCacheUpdate.SpellingExact | valkey_patches/0005_Add_senticache.patch:1233-1247 | Name and address are the target's if and only if the cache held no other spelling of them. |
| SentiCacheNode.BuildCommand | internal/valkey/senticache.go:336-384 | The arguments built in the loops are those of the items. |
| SentiCacheNode.DropReplicas | internal/valkey/senticache.go:359-374 | The listed replicas that are not in the target. |
| SentiCacheNode.DropSentinels | internal/valkey/senticache.go:342-358 | The listed sentinels that are not in the target. |
| SentiCacheNode.CommandApplies | internal/valkey/senticache.go:336-390 | The command as sent, joined, parsed and applied leads to the target. |
| SentiCacheNode.Node.Update | internal/valkey/senticache.go:308-391 | Success means the cache matches the target, from any cache, also after a restart, and is certain when the server answers; failure marks the node. |
| SentiCacheEdges.SameButCaseExact | valkey_patches/0005_Add_senticache.patch:1233-1247 | Names and addresses are compared letter by letter, up to ASCII case. |
| SentiCacheEdges.SpaceIsSkipped | valkey_patches/0005_Add_senticache.patch:1602-1675 | Any run of white space before a key or a value changes nothing. |
| SentiCacheEdges.LastCommaIsOptional | valkey_patches/0005_Add_senticache.patch:1602-1675 | A command without its last comma is parsed to the same pairs. |
| SentiCacheEdges.BrokenOffIsNotAnswered | valkey_patches/0005_Add_senticache.patch:1602-1675 | A text that ends within a key or before a value applies the complete pairs and is not answered with OK. |
| SentiCacheEdges.BadPortIsRefused | valkey_patches/0005_Add_senticache.patch:1299-1333 | A port of 0 or above 65535 is refused and changes nothing. |
| SentiCacheEdges.FieldsAreCounted | valkey_patches/0005_Add_senticache.patch:1299-1577 | A value with any other number of fields is refused and changes nothing. |
| SentiCacheEdges.BadQuorumIsPartial | valkey_patches/0005_Add_senticache.patch:1335-1390 | An invalid quorum fails the update after the other fields have been taken over. |
| SentiCacheEdges.MasterIsNoReplica | valkey_patches/0005_Add_senticache.patch:1463-1491 | The master's own address, in any spelling, is refused as a replica. |
| SentiCacheEdges.StrangerHasNoSpec | valkey_patches/0005_Add_senticache.patch:1392-1461 | A spec for a replica that is not held is refused and changes nothing. |
| SentiCacheEdges.RenameForgets | valkey_patches/0005_Add_senticache.patch:1233-1298 | A rename keeps the address, run id, epoch and who the replicas and sentinels are, and resets all else. |
| CacheUpdate.BuildState | internal/app/cache.go:10-84 | For every map order a state is built if and only if exactly one healthy, online, writable master exists and all online replicas are configured; it names that master, all online replicas and all other sentinels. |
| CacheUpdate.BuiltIsGood | internal/app/cache.go:10-84 | A state built from texts that can be written is a target the senticache can be brought to. |
| CacheUpdate.ReplicasDescribed | internal/app/cache.go:52-77 | On the fields of the states: every online replica has an entry with its address, run id, priority, offset and link state, and every entry is that of an online replica. |
| CacheUpdate.SentinelsDescribed | internal/app/cache.go:20-31 | Likewise for the sentinels of all other hosts. |
| CacheUpdate.BuiltAnnounces | internal/app/cache.go:52-77 | A built state announces every replica, so the cache lists it the next time. |
| CacheUpdate.UpdateCache | internal/app/cache.go:10-84 | End to end: a success leaves the cache with the only open master, all online replicas and all other sentinels, and exactly those replicas if all held ones were listed; without exactly one such master nothing is sent; with one and an answering server it succeeds. |
| LostMode.CheckHAReplicasRunning | internal/app/checks.go:3-47 | Passes exactly for a single host or with at least half of the hosts as answering non-masters whose link is up and that the host names or that name it. |
| LostMode.NoLiveLinkNoPass | internal/app/checks.go:37-47 | On a shard of several hosts, a master none of whose replicas reports a live link never passes. |
| LostMode.CheckReplica | internal/app/lost.go:40-61 | Says yes exactly for a replica that does not lag and has a live link to the only answering master, which is stable. |
| LostMode.TwoPassOnlyByDoubleCounting | internal/app/checks.go:37-43 | Two masters pass on one snapshot only if a replica counts for both. |
| LostMode.AtMostOnePasses | internal/app/checks.go:22-47 | On a consistent snapshot at most one master passes. |
| LostMode.StaleListSplits | internal/app/replication.go:13-21 | Three hosts whose snapshot is not consistent, with two masters passing. |
| LostMode.Node.StateLostHandler | internal/app/lost.go:9-90 | If probes and commands are answered, a master of a multi-host shard ends up closed exactly when it does not pass, and a replica exactly when it is stale or has no live link to the only answering, stable master. |
| LostMode.AllLost | internal/app/lost.go:9-90 | When every host has run the handler on one consistent snapshot, at most one obeying master is open. |
| PingWindow.Node.GetState | internal/valkey/node.go:453-509 | The window is the newest recorded results; INFO is cached exactly while a success is in the window, and is the latest one; a probe fails exactly when it is not answered with INFO, and then gives what is cached after a missed PING. |
| PingWindow.Node.EvaluatePing | internal/valkey/node.go:531-542 | Any and all over the window; alive exactly while INFO is cached. |
| PingWindow.OneMore | internal/valkey/node.go:467-509 | How one more probe moves the window and the cache. |
| PingWindow.ForgottenAfter | internal/valkey/node.go:467-482 | After an answer, exactly the window's length of misses forgets the host. |
| ZkPath.BuildFullPath | internal/dcs/zk.go:136-161 | The path is a separator before every non-empty part. |
| ZkPath.Compact | internal/dcs/zk.go:141-150 | The loop, in place, keeps one separator of every run. |
| ZkPath.SamePathSameParts | internal/dcs/zk.go:136-161 | Two texts give one path if and only if they have the same parts. |
| ZkPath.SegmentsJoin | internal/dcs/zk.go:141-141 | The parts are the namespace's and then the path's. |
| ZkPath.SegmentsRender | internal/dcs/zk.go:136-161 | The parts can be read back from the path. |
| ZkPath.Tree.MakePath | internal/dcs/zk.go:163-195 | Success leaves every ancestor present and is certain while the connection holds; only missing ancestors are created; the tree stays prefix-closed. |
| ZkPath.Tree.FindExisting | internal/dcs/zk.go:174-187 | The search upwards stops at an existing prefix just above a missing one. |
| ZkPath.Tree.SetMissing | internal/dcs/zk.go:450-461 | Success leaves the node and all its ancestors present; a missing parent is never reported, and while the connection holds the node is there. |
| HostProvider.RandomHostProvider.Next | internal/dcs/zk_host_provider.go:149-199 | Ends within two rounds on the first picked host with addresses; at most one reset, which is reported; no host is picked twice on either side of it. |
| HostProvider.RandomHostProvider.StoreResolved | internal/dcs/zk_host_provider.go:108-117 | A host with addresses never loses them all. |
| HostProvider.AtMostTwoRounds | internal/dcs/zk_host_provider.go:163-185 | No repeats between resets bounds the number of picks. |

## Left out

- ZooKeeper, valkey and TLS clients, DNS, process restarts, files, logging, configuration loading and the command line: each operation is a step that may fail, applied or not.
- Wall-clock guards (failover timeout, cooldown, inactivation delay, promote and catch-up deadlines): any number of attempts, and any value of the guard.
- The lock on the manager role and its cache: one manager at a time is assumed.
- Maintenance, forced switchovers and AllowDataLoss: data safety is given up there on purpose.
- Switchover timeout, rejection and the finished-switchover records: the record of one switchover is modelled from its first run on.
- Poison pills: they can fail a switchover, and what they do to the old master is not part of the model.
- Cluster-mode promotion with FORCE or TAKEOVER: one promotion command.
- A nil dereference when the chosen new master or most recent host is not a host of the shard ends the modelled procedure as a failure.
- Turning a host to the new master is one step: the repointing command and the resume after it.
- Writes acknowledged before a change of the active list: nothing in the code waits for the newly counted hosts to hold them.
- Only the mapping of host names to their addresses keeps the quorum setting a set of hosts; the strings of host:port pairs are not modelled.
- The rollback of a configuration command that has failed in the server.
- The local-fsync condition of WAITAOF clients, and unblocking on disconnect.
- The restart and close branches of repairLocalNode and AOF modes; of stale-replica handling, only that it resumes a host or points it at the old master, or at the promoted new one.
- A daemon that points its host at the new master before the promotion, when the DCS already names it.
- Whether the quorum mark of a client, which the patch sets and never clears, outlives its WAITQUORUM: a waiter's kind is the mark's value when the list is walked, and the order of the list is not in the patch.
- Namespaces that do not start with a separator: internal/dcs/zk.go:64-66 refuses them.
- Reading INFO text into a map.
- Address resolution in the senticache: every address resolves to itself; ports outside 1 to 65535 are rejected as in the code.
- The secret and the argument count of SENTINEL CACHE-UPDATE, and the events it publishes.
- Negative numbers in fields read with strtoul, and numbers beyond 64 bits.
- The runid and address of a sentinel that is already known: adding it again changes nothing, so only the names agree.
- Deletions of ZooKeeper nodes by other clients while a path is being made.
- Switchover.App.PickMaster: takes the desirable host as an input; which one it is, is Selection.GetMostDesirableNode.
- The notification of the senticaches in phase 6, whose failure changes nothing else.
- The cluster-mode slot check in the choice of the only master that LostMode.CheckReplica compares with.
- Switchover.App.TakeSnapshot: a snapshot is one moment and its true values are the stated hypotheses, because the code does not check them.
- CacheUpdate.BuildState: requires a name for every healthy host and a replica state for every online replica, because the code dereferences them.
