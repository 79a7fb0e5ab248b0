# A verified model of the replicated key-value store

The program replicates a key-value map with Raft (Ongaro and Ousterhout, "In Search of an
Understandable Consensus Algorithm", sections 5.2, 5.3, 5.4 and 7; reads follow section 6.4 of
Ongaro's dissertation). A node keeps a snapshot and a live log in memory, and a hard-state file, a
snapshot file and a log file on disk. Every store call may fail, and a node may crash between any
two writes. This project models the node, its store and the cluster, and proves what every run keeps.

The model has two levels.

* `Protocol` describes each locked section of the program as a function on a node that holds its
  *full* log, together with a value that says what is on its disk. `Cluster` lets any number of such
  nodes run together: messages may be lost, delayed, repeated and reordered, store calls may fail in
  any way, nodes may crash and restart at any time. `History` adds history variables (who led each
  term with which log, every vote, every acknowledgement, every index committed by majority), and
  `Invariant`, `Growth`, `NodeSteps`, `VoteSteps`, `LeaderSteps`, `FollowerSteps` and `DiskSteps` show
  that every step keeps the invariant; `Roots`, `AckSteps` and `RootedCluster` show the same of the part
  that is about elections, logs and fresh promises alone, under weaker conditions. `Safety`,
  `Durability`, `IndexChain`, `Disks`, `Merging` and `Backup` hold the main results, `Answers` says of
  every handler what it answers and when, and `CarelessRun` is a run that shows why some results need
  a condition.
* `Replicas.Replica` is the node as the program has it: an object that changes its fields, with a
  snapshot, a live log, a `Storage.Store` that writes bytes (`Wal`), a `KeyValue.StateMachine` and
  `Waiting.Waiters`. Each method is proved to do, on the full log that snapshot and live log stand
  for (`Compaction.Represents`), exactly what the function of `Protocol` does, to keep files and
  memory in step (`Compaction.OnDisk`, `NodeMemory`), and to keep `Valid()`. The fields that the
  node's lock protects are kept in one record, `mem`. `Transfers` streams a snapshot to such a node,
  and `Requests` shows that what it asks of the requests it gets holds of those in the network.

How a store call ends is a parameter. A call that replaces a file returns no error (`Ok`), or an
error with the old contents (`Lost`) or with the new contents (`Kept`) in place. An append ends after
any number of bytes. So a crash inside a locked section is a run in which the later writes are lost.

Some things that one would want the code does not do. Each has a lemma with concrete steps that show
it, and a theorem that says exactly when the code does what one wants.

* Compaction does not ask whether the store has failed (`internal/raft/node.go:1479-1497`). If the
  install of a snapshot fails after it has rewritten the log file, compaction can put an older
  snapshot next to that log file, and a crash then loses entries the node has acknowledged
  (`Disks.AcknowledgedEntryLost`) and lowers its commit index (`IndexChain.ForgottenCommit`). In a
  cluster of five, two nodes can then commit different entries at the same index
  (`CarelessRun.SafetyNeedsCare`). What the node has acknowledged survives exactly if the base of the
  log file is not beyond the applied index, or the snapshot alone has all of it
  (`Disks.CompactionKeepsAcks`); its commit index survives exactly if the base is not beyond the
  applied index, or all that is committed is applied (`IndexChain.RecoverableExactlyIf`). What is
  proved about committed entries is therefore about *careful* runs, in which no compaction starts
  while the base is beyond the applied index (`Cluster.Careful`). Elections, logs, votes, fresh
  acknowledgements, the order of the indices and failing closed do not depend on it; what is proved
  about them holds in all runs.
* The log file takes its base from the snapshot file (`internal/storage/wal.go:163`). If the end of
  the log is replaced after compaction has written its snapshot and before it has dropped the old
  entries, the log file cannot be loaded any more, on a node where nothing has failed
  (`Disks.HealthyNodeStranded`). Files that can be loaded are spoiled in this way and in no other
  (`Disks.LoadableExactlyIf`). The model carries it as `Disk.loadable`, and a node restarts only from
  files that can be loaded.
* A term that a node has heard of but could not write is lost with its memory
  (`IndexChain.UnwrittenTermIsLost`, `IndexChain.TermFallsExactlyIf`). The node has failed closed in
  between and has promised nothing in that term.
* The end of the log is replaced by what is left of an append request as it is, so an entry under the
  snapshot after the conflict would get into the log (`NodeMemory.StaleEntryAfterConflict`,
  `Replicas.Replica.MergeEntries`). No leader sends such a request (`Requests.AppendsAreContiguous`).

## Model

| member | source | states |
|---|---|---|
| Safety.ElectionSafety | internal/raft/node.go:806-895 | in every run, whatever its compactions do, at any two times, two nodes that lead in the same term are the same node, with crashes and failed writes anywhere and for any cluster size |
| Safety.LogMatching | internal/raft/node.go:519-556 | in every run, two logs at any two times, in memory, behind a log file or as a restart finds them, with the same term at an index are the same up to it |
| Safety.LeaderCompleteness | internal/raft/node.go:888-927 | in careful runs, a leader has every entry that any node had committed at any earlier time in its own or an earlier term |
| Safety.StateMachineSafety | internal/raft/node.go:1376-1451 | in careful runs, what any two nodes have committed at any two times agrees as far as both go, so equal applied indices mean equal maps |
| Safety.NeverCutsCommitted | internal/raft/node.go:1545-1547 | in careful runs, the refusal to cut into committed entries is never taken for a request that is in the network |
| Safety.SnapshotAgrees | internal/raft/node.go:605-613 | in careful runs, a snapshot chunk in the network agrees with what its receiver has committed |
| Safety.StreamsAreOne | internal/raft/node.go:615-626 | in every run, a chunk in the network that looks like the stream its receiver has under way is of the same snapshot |
| Safety.SnapshotsAreOne | internal/raft/node.go:615-619 | in every run, all chunks of one index and term, whoever sends them and whenever, stand for one log prefix |
| RootedCluster.StepRooted | internal/raft/node.go:461-1514 | every one of the fifteen kinds of step, careful or not, keeps votes, terms and roles sound and every log made of what the leaders of its terms wrote, and the history only grows |
| Safety.RunRooted | internal/raft/node.go:461-1514 | so these hold in every state of every run |
| Requests.AppendsAreContiguous | internal/raft/node.go:1140-1155 | in every run the entries of an append request in the network follow its previous entry one by one, so that no receiver has anything to skip and what `HandleAppendEntries` asks holds |
| Requests.ChunksAreInStep | internal/raft/node.go:605-626 | a chunk in the network is of the same snapshot as the stream it continues, in every run, as the first section of the handler asks; it agrees with what the receiver has committed, in careful runs, as the second asks |
| Requests.ChunksAreCut | internal/raft/node.go:1199-1228 | the prefix of every chunk in the network is one that a snapshot stands for, and the bytes that the sender cuts for it are a chunk of that prefix, as the snapshot handlers ask |
| Requests.LeadersCutChunks | internal/raft/node.go:1118-1124 | every chunk that a leader of a run may cut from its snapshot is one that the network of the model may carry |
| Safety.BarrierIsQuorum | internal/raft/node.go:1300-1331 | the read barrier's count of fresh acknowledgements passes if and only if those who answered make a quorum of the cluster with the leader itself |
| Safety.LinearizableRead | internal/raft/node.go:355-407 | in careful runs, if a read shows the value in a committed prefix of the log that reaches its read index, then this prefix has every entry that any node of the cluster had committed when the read began |
| Safety.RunKeeps | internal/raft/node.go:461-1514 | the full invariant holds in every state of every careful run |
| Cluster.StepKeeps | internal/raft/node.go:461-1514 | every one of the fifteen kinds of step, if careful, keeps the full invariant, and the history only grows, by what the acting node did |
| History.LaterLeadersHold | internal/raft/node.go:482-493 | an index chosen by majority in a term is in the log of every leader of a later term, from the recorded history alone |
| History.CommittedAgree | internal/raft/node.go:1376-1401 | two committed prefixes agree as far as both go |
| History.QuorumIsOverHalf | internal/raft/node.go:1768-1770 | a quorum is any set of more than half of the members |
| Logs.UpToDateOrders | internal/raft/node.go:484-487 | being as up to date orders all logs totally, and a log that goes on is more up to date |
| LeaderSteps.ChoiceSound | internal/raft/node.go:1376-1390 | the index that the majority rule picks is acknowledged by a quorum in the leader's term |
| FollowerSteps.MergeOutcome | internal/raft/node.go:1524-1560 | merging a leader's request never refuses, leaves a log that has what it brings as it is, and otherwise gives exactly what the request brings |
| Durability.PersistBeforePromise | internal/raft/node.go:461-572 | in every run, when a vote is granted the disk holds its term and choice, and when entries are acknowledged, or counted by their leader, the disk holds their term and the entries; for a snapshot at or below the commit index, which is acknowledged unseen, if and only if the log has its entries, which it does in careful runs |
| Durability.RestartKeepsPromises | internal/raft/node.go:109-130 | whenever the files of a node can be loaded, a restart finds on disk the votes it ever gave, in every run, and what it ever acknowledged, in careful runs |
| Disks.LoadableExactlyIf | internal/storage/wal.go:160-168 | in every run, the files of a node can be loaded after its step if and only if they could before or the step rewrites the log file, and the step does not replace the end of the log while the snapshot file is ahead of the node's snapshot |
| Disks.LoadableUnlessStranded | internal/storage/wal.go:160-168 | a node that never does the latter can be restarted at any time |
| Disks.HealthyNodeStranded | internal/raft/node.go:545-556 | concrete steps, with no failing store call and two successful replies, after which the files cannot be loaded |
| Durability.FatalIsSilent | internal/raft/node.go:980-992 | in every run, from a store failure to its next restart a node does not lead or campaign, grants no vote and acknowledges nothing |
| IndexChain.IndicesInOrder | internal/raft/node.go:116-130 | in every state of every run, snapshot index, applied index, commit index and log length are in order, the disk is not behind, and the log is contiguous with terms that never decrease |
| IndexChain.IndexFallsExactlyIf | internal/raft/node.go:116-130 | in every run, no step but a restart lowers an index; a restart lowers the commit index if and only if the log on disk ends below it, the applied index likewise, and never the snapshot index |
| IndexChain.RecoverableExactlyIf | internal/raft/node.go:1479-1497 | in every run, the log on disk comes to end below the commit index if and only if compaction writes a snapshot short of it while the base of the log file is beyond that snapshot |
| IndexChain.IndicesOnlyGrow | internal/raft/node.go:116-130 | over any run in which a node never forgets in this way, and so over any careful run, its snapshot, applied and commit index and the lower of its terms in memory and on disk never go back, restarts included |
| IndexChain.ForgottenCommit | internal/raft/node.go:1479-1497 | concrete steps of one node after which a restart has a lower commit index and a lower applied index |
| IndexChain.SaveMoves | internal/raft/node.go:1479-1497 | a restart right after the snapshot write of a compaction has a lower commit index if and only if the snapshot is short of it and the base of the log file beyond the snapshot; it never has a lower applied index |
| IndexChain.TermFallsExactlyIf | internal/raft/node.go:952-978 | in every run, the term in memory falls at a step if and only if the step is a restart of the node and its disk never got the term, and then the node has failed closed |
| IndexChain.UnwrittenTermIsLost | internal/raft/node.go:952-978 | concrete steps after which it does fall |
| Disks.CrashAtomicInstall | internal/raft/node.go:713-746 | whichever of the three writes of an install was the last to take effect, the disk is as it was, or has log, snapshot, commit index and applied prefix as after the install; it can be loaded if and only if it could before or the log file has been rewritten |
| Disks.CompactionKeepsAcks | internal/raft/node.go:1479-1497 | after the snapshot write of a compaction a restart finds the log behind the log file, or the snapshot alone if that file's base is beyond it; it still has all that the node acknowledged if and only if the base is not beyond the applied index or the snapshot alone holds all of it that no later leader has replaced |
| Disks.AcknowledgedEntryLost | internal/raft/node.go:1479-1497 | concrete steps of one node after which the condition fails and an acknowledged entry is gone after a crash |
| CarelessRun.SafetyNeedsCare | internal/raft/node.go:1479-1497 | a run of five nodes, with one failed write, one careless compaction and one restart, in which two nodes commit different entries at the same index |
| Merging.MergeCorrect | internal/raft/node.go:1524-1560 | for any log and request: old prefix, committed part and all request entries are in the merged log; it is cut exactly at a difference in term above the commit index, refused at one below, unchanged exactly if the log has all terms |
| Merging.MergeTwice | internal/raft/node.go:1537-1544 | a request taken in once, or any beginning of it, changes nothing when it comes again, whatever has been committed meanwhile |
| Answers.VoteGivenExactlyIf | internal/raft/node.go:461-496 | if nothing fails, a vote is given if and only if the voter has not failed, the term is not earlier, the candidate's log is at least as up to date, and the vote of that term is not another's |
| Answers.VoterLeft | internal/raft/node.go:461-496 | what term, vote and role a voter is left with, given or not, in memory and on disk |
| Answers.CampaignStarts | internal/raft/node.go:806-837 | a campaign starts if and only if the node does not lead, has not failed and can write it, and a candidate may campaign again; otherwise term, vote and role are as before |
| Answers.StepsDown | internal/raft/node.go:952-978 | the higher of the two terms, a free vote if and only if the term is new, and failing closed if and only if the write fails |
| Answers.MajorityIsQuorum | internal/raft/node.go:1380-1389 | what the commit rule counts as a majority is a quorum of the cluster, and the other way round |
| Answers.CommitReaches | internal/raft/node.go:1376-1401 | the commit index moves to every index of the current term that a quorum holds and to none else; if that cannot be written it stays and the node fails closed |
| Answers.AllCommitted | internal/raft/node.go:1376-1401 | once a quorum holds all of a leader's log and it ends with an entry of the leader's term, all of it is committed |
| Answers.ProposalIsLogged | internal/raft/node.go:304-346 | a proposal is taken if and only if the node leads, has not failed and can write it; then the log ends with an entry that has the next index, the term and the command itself |
| Answers.AloneCommits | internal/raft/node.go:340-343 | a leader without peers commits a proposal at once |
| Answers.LeaderStarts | internal/raft/node.go:888-928 | a new leader's log ends with its no-op, which reads wait for, and it knows nothing of what its peers hold |
| Answers.AckCounts | internal/raft/node.go:1168-1176 | an acknowledgement raises what is known of its sender and of nobody else; a late one changes nothing |
| Answers.AppendSucceedsExactlyIf | internal/raft/node.go:498-572 | if nothing fails, a request succeeds if and only if the node has not failed, the term is not earlier, the previous entry matches above the snapshot, and no committed entry is contradicted |
| Answers.ConflictAnswered | internal/raft/node.go:498-543 | what is answered otherwise, if nothing fails: a refusal, or where to go on, which is right after the snapshot, at the start of a run of terms, or at the first committed entry of another term |
| Answers.AppendLeaves | internal/raft/node.go:534-572 | after a success the log is the merged one, in memory and on disk, and the commit index is the sender's as far as the request goes, or the old one if that is higher |
| Answers.AppendFails | internal/raft/node.go:544-566 | if the entries cannot be written the node fails closed and its log in memory stays; if only the commit index cannot, it takes the entries, does not acknowledge them, and goes on |
| Answers.ChunkTakenExactlyIf | internal/raft/node.go:615-659 | a chunk is taken if and only if it starts where the bytes received of its snapshot end; otherwise the answer says where they end |
| Answers.ChunkAnswered | internal/raft/node.go:578-613 | when a chunk is refused, when the snapshot is not needed, and that it is looked at otherwise |
| Answers.InstallSucceedsExactlyIf | internal/raft/node.go:675-754 | if nothing fails, an install succeeds if and only if the whole body is there or is not needed, and what it leaves behind |
| Answers.ApplyCatchesUp | internal/raft/node.go:1406-1440 | applying moves on by one entry exactly while something committed is not applied |
| Answers.CompactionCompletes | internal/raft/node.go:1479-1513 | a compaction that nothing disturbs moves the snapshot to the applied index, in memory and on disk, and leaves the full log as it is |
| Answers.CompactionFails | internal/raft/node.go:1490-1511 | a compaction whose writes fail leaves the node in memory as it was |
| Answers.StartsFromDisk | internal/raft/node.go:109-176 | a node starts as a follower with the term, vote and log of its disk, and has applied what the hard state says is committed, but no less than the snapshot and no more than the log |
| Backup.AlwaysCompatible | internal/raft/node.go:1099-1194 | in every careful run a leader's log matches every follower's as far as back-up needs |
| Backup.ConflictSkipsRun | internal/raft/node.go:1579-1598 | a conflict index goes back by exactly one run of equal terms, all of which the follower has in one term |
| Backup.AttemptProgress | internal/raft/node.go:1099-1194 | every attempt needs the snapshot, is taken by the follower with the leader's whole log and commit index, or leaves strictly fewer attempts |
| Backup.ReplicateToPeer | internal/raft/node.go:1099-1195 | the loop of one call makes at most 128 attempts, each from the index that the one before left |
| Backup.BackupConverges | internal/raft/node.go:1099-1194 | two attempts more than there are runs of equal terms in the follower's live log, and one more from a stale index beyond the leader's log, end in a snapshot or in a follower that has the leader's whole log and has committed as much |
| Backup.CallsConverge | internal/raft/node.go:1099-1195 | the same for calls of at most 128 attempts each, which go on from the next index that the call before left |
| Transfers.SendSnapshot | internal/raft/node.go:1199-1261 | to a replica that nothing else happens to and whose store calls succeed, whatever an earlier attempt left there, the stream of real bytes succeeds, and unless it had committed as much, the replica ends with the snapshot installed in memory and on disk and with the sender's map; the number of requests is bounded |
| Transfers.CutIsChunkOf | internal/raft/node.go:1216-1228 | what the sender cuts from its encoded map is a chunk of the log prefix that its snapshot stands for, as every receiver asks |
| Transfers.InstalledIs | internal/raft/node.go:713-746 | what the receiver ends with: the prefix in its log, with all its indices and files at the snapshot |
| Protocol.CommitTarget | internal/raft/node.go:1376-1390 | the highest index above the commit index that has an entry of the current term on a majority, and the commit index if there is none |
| Protocol.FirstConflict | internal/raft/node.go:1537-1550 | the first position at which request or log run out or differ in term |
| KeyValue.StateMachine.Apply | internal/server/state_machine.go:18-42 | the object's map and result are those of the functional command |
| KeyValue.AppliedMeans | internal/server/state_machine.go:22-41 | after a put the key has the value, after a delete it is gone, a compare-and-swap puts its value if and only if the key had the expected one, and nothing else changes |
| KeyValue.ResultMeans | internal/server/state_machine.go:22-41 | what each result says about the map before and after the command |
| KeyValue.LastWriteCounts | internal/server/state_machine.go:18-42 | a key has a value in the map of a log if and only if some command gave it this value and every later one has left it alone |
| KeyValue.StateMachine.Snapshot | internal/server/state_machine.go:44-52 | the copy equals the map |
| KeyValue.StateMachine.Restore | internal/server/state_machine.go:54-61 | the map equals the snapshot |
| KeyValue.StateMachine.Get | internal/server/state_machine.go:63-68 | found exactly if the key is in the map, with its value |
| KeyValue.Copy | internal/raft/node.go:1833-1842 | copying a map key by key gives the same map |
| Wal.ReadLines | internal/storage/wal.go:179-238 | the reading loop computes `Read`: records line by line, a torn tail cut off, anything out of order refused |
| Wal.TornFileReads | internal/storage/wal.go:179-238 | whole lines with a torn tail read as exactly the whole lines, and are cut back to them |
| Wal.BadLineReads | internal/storage/wal.go:205-235 | a record that may not follow the ones before it makes the whole file unreadable |
| Wal.GarbledLineReads | internal/storage/wal.go:206-209 | a whole line that does not decode makes the file unreadable |
| Wal.BlankLineReads | internal/storage/wal.go:201-205 | blank lines are skipped |
| Wal.TornAppend | internal/storage/wal.go:132-148 | a crash at any byte of an append leaves a whole-record prefix of the batch and a tail without a newline |
| Wal.TornAppendReads | internal/storage/wal.go:179-238 | after a crash at any byte of an append, reading finds the earlier records and a whole-record prefix of the batch, and cuts the file back to these |
| Wal.BaseAndItems | internal/storage/wal.go:205-235 | a base record and entries are readable if and only if the entries follow the base one by one |
| Wal.ItemsAlone | internal/storage/wal.go:205-235 | without a base record, entries are readable if and only if they start above 0 and follow one another |
| Wal.BaseComesFirst | internal/storage/wal.go:205-235 | a readable file has a base if and only if its first record is one |
| Storage.EntriesAfter | internal/storage/wal.go:371-380 | the filter over the entries' own array equals the functional filter, and reports a change exactly if it dropped something |
| Storage.Reconcile | internal/storage/wal.go:347-360 | the method computes `Reconciled` |
| Storage.ReconcileKeeps | internal/storage/wal.go:347-380 | with and without a base record: the entries after the snapshot survive if and only if an entry of the log file, or its base, has the snapshot's index and term; nothing is rewritten if the base is the snapshot or the file is empty |
| Storage.ReconcileTwice | internal/storage/wal.go:347-360 | reconciling again after a rewrite gives the same entries and rewrites nothing, for whatever a log file may hold |
| Storage.AcceptedContiguous | internal/storage/wal.go:205-235 | the entries read from any readable log file follow one another |
| Storage.LoadTwice | internal/storage/wal.go:60-91 | loading is idempotent for any records at all: a second load returns what the first did and leaves the file as the first left it |
| Storage.LoadFailsExactlyIf | internal/storage/wal.go:60-91 | a load is refused if and only if the log file cannot be read, or goes on from a base that no snapshot stands for |
| Storage.Store.constructor | internal/storage/wal.go:48-58 | an empty store |
| Storage.Store.SaveHardState | internal/storage/wal.go:93-97 | the file is replaced as a whole or not at all |
| Storage.Store.SaveSnapshot | internal/storage/wal.go:170-177 | the file is replaced as a whole or not at all |
| Storage.Store.AppendEntries | internal/storage/wal.go:99-158 | the file then holds the old records and a prefix of the new ones, all of them on success; a new file starts with its base record |
| Storage.Store.ReplaceEntries | internal/storage/wal.go:160-168 | the file holds the snapshot file's base and the entries, or is unchanged |
| Storage.Store.Load | internal/storage/wal.go:60-91 | what is returned and what is left in the log file; a write that is needed and fails is an error, one that is not needed cannot fail |
| Compaction.LookupsAgree | internal/raft/node.go:1621-1656 | entry, term, last index and last term of snapshot and live log are those of the full log, and missing exactly under the snapshot and beyond the end |
| Compaction.AppendRepresents | internal/raft/node.go:335 | appending to the live log appends to the full log |
| Compaction.CutRepresents | internal/raft/node.go:1600-1609 | cutting the live log cuts the full log, above the snapshot |
| Compaction.CompactRepresents | internal/raft/node.go:1497-1513 | moving the snapshot up leaves the full log as it is |
| Compaction.InstallRepresents | internal/raft/node.go:1465-1477 | what stays of the live log next to a received snapshot stands for the snapshot's log, with the old entries after it if they agree |
| Compaction.LoadFinds | internal/storage/wal.go:60-91 | loading files that can be loaded finds the log behind them, split at the snapshot, and leaves the files as the restarted node expects them |
| Compaction.LoadRefuses | internal/storage/wal.go:60-91 | loading other files is refused and leaves them as they are |
| Compaction.AppendOnDisk | internal/storage/wal.go:99-158 | an append that left some of its records in the file extends the log behind the files by as many entries |
| Compaction.ReplaceOnDisk | internal/storage/wal.go:160-168 | the files after a replacement, and that they can be loaded if and only if the snapshot file is the snapshot that the entries follow |
| Compaction.InstallOnDisk | internal/raft/node.go:724-728 | once the file of a received snapshot is in place, a load finds the log after the snapshot |
| Compaction.CompactOnDisk | internal/raft/node.go:1490-1497 | what a load finds once the snapshot file of a compaction is in place |
| Waiting.Waiters.Register | internal/raft/node.go:338-339 | a new, empty channel waits at the index; like all methods of the object it keeps that whoever has a ticket waits where it was issued, has been told, or has given up |
| Waiting.Waiters.Send | internal/raft/node.go:1685-1688 | every channel that is sent to is empty, so no send blocks, and gets exactly the one reply |
| Waiting.Waiters.FailAbove | internal/raft/node.go:997-1009 | exactly the channels above the commit index are told that this node no longer leads, and are taken out |
| Waiting.Waiters.Finish | internal/raft/node.go:1682-1689 | exactly the channels at the index get the result, and are taken out |
| Waiting.Waiters.Remove | internal/raft/node.go:1691-1704 | exactly the one channel is taken out, and its owner is the one who has given up |
| Waiting.Waiters.StopAll | internal/raft/node.go:242-256 | every waiting channel is told that the node stops, and no other channel changes |
| NodeMemory.StillNext | internal/raft/node.go:1430-1437 | the entry whose command was run is still the next one to apply, so the check after `Apply` never discards it |
| NodeMemory.DeliverOk | internal/raft/node.go:1438-1440 | whoever waits at the applied index proposed the entry there and gets the result of its own command |
| NodeMemory.ChunkAdds | internal/raft/node.go:636-659 | a chunk that starts where the buffer ends makes it a longer beginning of the encoded map, and the last one completes it |
| NodeMemory.CompactOk | internal/raft/node.go:1490-1497 | files and memory after the first half of a compaction, for each outcome |
| NodeMemory.DropOk | internal/raft/node.go:1500-1513 | files and memory after the second half, for each outcome |
| NodeMemory.AppendOk | internal/storage/wal.go:99-158 | files and log after an append, for each number of bytes written |
| NodeMemory.InstalledOk | internal/raft/node.go:740-746 | log, machine, files and waiting proposals after the switch to a received snapshot |
| Replicas.Replica.constructor | internal/raft/node.go:144-176 | a follower that has applied all it knows to be committed |
| Replicas.Replica.Recover | internal/raft/node.go:109-183 | recovery gives the node that `Restart` describes, if and only if the files can be loaded and the writes that are needed succeed; whether it succeeds or fails, it leaves files from which the next attempt gives the same node |
| Replicas.Replica.StartFrom | internal/raft/node.go:113-183 | the second half: the recovered commit index is written if it is new, and the node is built |
| Replicas.Replica.Replay | internal/raft/node.go:113-130 | the recovered commit index, and a machine that holds the fold of the log up to it |
| Replicas.Replica.Persist | internal/raft/node.go:1658-1672 | the hard-state file for each outcome |
| Replicas.Replica.FailUncommitted | internal/raft/node.go:997-1009 | exactly those who wait above the commit index are told that this node no longer leads |
| Replicas.Replica.FailStorage | internal/raft/node.go:980-992 | `Fail`: a follower that promises nothing; whoever waited for an uncommitted entry is told |
| Replicas.Replica.BecomeFollower | internal/raft/node.go:952-978 | `BecomeFollower`, with fail-closed on a failed write; whoever waited for an uncommitted entry of this node is told |
| Replicas.Replica.StartElection | internal/raft/node.go:806-837 | `StartElection`, with the roll-back of role, term and vote on a failed write |
| Replicas.Replica.HandleRequestVote | internal/raft/node.go:461-496 | `HandleVote` for known candidates, and no change for others |
| Replicas.Replica.GiveVote | internal/raft/node.go:482-495 | `GiveVote`, with the roll-back of the vote on a failed write |
| Replicas.Replica.CountHolders | internal/raft/node.go:1383-1388 | the counting loop gives the number of peers known to hold an index |
| Replicas.Replica.FindCommit | internal/raft/node.go:1376-1390 | the search from the end of the log down finds `CommitTarget` |
| Replicas.Replica.AdvanceCommit | internal/raft/node.go:1376-1401 | `AdvanceCommit`, with the roll-back of the commit index on a failed write |
| Replicas.Replica.StoreEntries | internal/raft/node.go:330-334 | files and disk log after an append, for each number of bytes written |
| Replicas.Replica.AppendOwn | internal/raft/node.go:330-337 | the leader's own log grows in the file first, then in memory; otherwise it fails closed |
| Replicas.Replica.FreshIndices | internal/raft/node.go:896-905 | a new leader knows nothing about its peers' logs |
| Replicas.Replica.BecomeLeader | internal/raft/node.go:888-928 | `BecomeLeader` for a candidate still in the term, with every peer due the entries from the no-op on, and no change otherwise |
| Replicas.Replica.ProposeAppend | internal/raft/node.go:304-346 | `Propose`, and a new ticket that stands for exactly the entry with the next index, the term and the command, and waits at its index unless it has been told otherwise, or none |
| Replicas.Replica.FindConflict | internal/raft/node.go:1579-1598 | the loop finds `ConflictIndex` on the full log |
| Replicas.Replica.ValidateEntries | internal/raft/node.go:1562-1577 | zero if and only if the entries above the snapshot follow prev one by one, otherwise the first index out of step |
| Replicas.Replica.LastNew | internal/raft/node.go:1525-1530 | the last index that the entries above the snapshot cover |
| Replicas.Replica.MergeEntries | internal/raft/node.go:1524-1560 | the loop on the live log, which skips entries under the snapshot, gives what `Protocol.MergeEntries` gives on the full log, in each of its four cases; a replaced end comes out right if and only if no entry under the snapshot comes after the conflict |
| NodeMemory.StaleEntryAfterConflict | internal/raft/node.go:1548-1550 | a concrete request for which it does not |
| Replicas.Replica.ReplaceTail | internal/raft/node.go:545-556 | the end of the log is replaced in the file first, then in memory; otherwise it fails closed |
| Replicas.Replica.FollowCommit | internal/raft/node.go:557-566 | `FollowCommit`, with the roll-back of the commit index on a failed write |
| Replicas.Replica.WriteEntries | internal/raft/node.go:544-556 | exactly the store call that the merge asks for, and disk and memory agree after it |
| Replicas.Replica.AcceptEntries | internal/raft/node.go:534-572 | `AcceptEntries` for the entries above the snapshot if they follow prev one by one, and a conflict without any change otherwise |
| Replicas.Replica.AppendAsFollower | internal/raft/node.go:519-572 | `AppendAsFollower` in the same way; what is answered to entries out of step |
| Replicas.Replica.HandleAppendEntries | internal/raft/node.go:498-572 | `HandleAppend` for known senders and entries that, above the snapshot, follow prev one by one; for others no change of the log, and the first index out of step once the previous entry matches |
| Replicas.Replica.TakeChunk | internal/raft/node.go:615-659 | `TakeChunk`, with a buffer that is always a beginning of the encoded map and is the whole of it when the install starts |
| Replicas.Replica.HandleChunk | internal/raft/node.go:574-661 | `HandleChunk`, the first locked section, whatever is committed |
| Replicas.Replica.EntriesBeyond | internal/raft/node.go:1470-1476 | the loop gives the live entries beyond an index |
| Replicas.Replica.LogAfterSnapshot | internal/raft/node.go:1465-1477 | what stays of the live log next to a snapshot |
| Replicas.Replica.InstallFiles | internal/raft/node.go:724-738 | the three writes in order, up to the first error, with files and disk log in step after each |
| Replicas.Replica.CrashInInstall | internal/raft/node.go:724-738 | after a crash at any write of an install, recovery from the real files gives a node as if there had been none, or one with the log after the snapshot and all its indices at it; if its own writes succeed, recovery fails exactly if the log file could not be loaded before and has not been rewritten |
| Replicas.Replica.InstallSnapshot | internal/raft/node.go:713-754 | `InstallSnapshot`: disk first, then memory and machine |
| Replicas.Replica.FinishInstall | internal/raft/node.go:675-754 | `FinishInstall`, the second locked section with all its checks |
| Replicas.Replica.BeginApply | internal/raft/node.go:1406-1427 | the next committed entry is picked exactly if there is one |
| Replicas.Replica.RunCommand | internal/raft/node.go:1428 | the machine then holds the fold of the log with that entry |
| Replicas.Replica.Publish | internal/raft/node.go:1430-1440 | `ApplyNext`, with the result delivered to exactly those who wait at the index |
| Replicas.Replica.FinishApply | internal/raft/node.go:1430-1450 | `ApplyNext` with the delivery, and a snapshot is taken exactly if the live log is longer than the threshold |
| Replicas.Replica.Capture | internal/raft/node.go:1453-1463 | the snapshot taken is that of the applied log |
| Replicas.Replica.WriteSnapshot | internal/raft/node.go:1479-1497 | `SaveSnapshot`, unless a newer snapshot has been installed meanwhile |
| Replicas.Replica.DropCompacted | internal/raft/node.go:1499-1513 | `FinishSnapshot`: the full log is unchanged, an error changes nothing in memory |
| Replicas.Replica.PrepareAppend | internal/raft/node.go:1108-1156 | the request built from the live log is the one built from the full log; the snapshot is sent exactly if the entries are gone; what becomes of the next index |
| Replicas.Replica.ReceiveAppendReply | internal/raft/node.go:1158-1192 | `ReceiveAck` for a success in the same term, a step-down for a higher term, no change of the node otherwise; the next index after each kind of reply, and another attempt if and only if there was a conflict |
| NodeMemory.NextMeans | internal/raft/node.go:1168-1191 | the next index of the peer after a success, a conflict and a refusal, and that no other peer's moves |
| Replicas.Replica.ReceiveSnapshotReply | internal/raft/node.go:1127-1137 | `ReceiveAck` without an advance of the commit index, in the same term |
| Replicas.Replica.RemoveWaiter | internal/raft/node.go:1691-1704 | exactly the proposer's channel no longer waits |
| Replicas.Replica.ReadIndex | internal/raft/node.go:367-383 | the read index that `LinearizableRead` asks for, if and only if the node still leads in the confirmed term |
| Replicas.Replica.ReadValue | internal/raft/node.go:389-405 | the value shown is that in a committed prefix which reaches the read index, as `LinearizableRead` asks |

## Left out

- Timers, contexts, goroutines and condition variables: a step may happen whenever its guard holds; nothing is said about when it does.
- gRPC and JSON: messages are values, and a record or map codec is any pair of functions that decodes what it encoded; a body that does not decode is not part of this model.
- File-system calls, fsync and the checksum: a file is replaced as a whole, an append leaves a prefix of its bytes.
- Stopping a node: only `Waiting.Waiters.StopAll` is modelled, not the flag that every handler asks.
- Integers are unbounded: terms and indices do not wrap at 64 bits.
- Leader hints, status, error texts, configuration and the client commands: they carry no hard property.
- Membership is fixed, and every node has the same peers.
- Replication slots: that one call per peer is in flight is not used and not proved.
- Cluster.StepKeeps: the network is larger than the real one; a step-down may come with any term, a request may start at any index above the snapshot, and a chunk may have any bounds.
- Safety.RunKeeps: a compaction that starts while the base of the log file is beyond the applied index is left out, for the reason given above.
- Safety.LinearizableRead: waiting for the read index and retrying are not modelled; the three moments of a read are any three states of a run in that order.
- Disks.CrashAtomicInstall: the recovered commit index may be higher than the snapshot's if the disk knew of a higher one before.
- Transfers.SendSnapshot: other requests between the chunks, a change of the sender's term or role and a failing install at the receiver are left out; in the last case the program goes on until its context ends.
- Backup.BackupConverges: the follower does not change between the attempts, and no store call fails; the same is asked between the calls of `Backup.CallsConverge`.
- Storage.Store.Load: a hard-state or snapshot file that cannot be decoded is left out, and a truncation of the torn tail that fails is one of the errors.
- Replicas.Replica.HandleAppendEntries: requests that replace the end of the log and have an entry under the snapshot after the conflict are left out, for the reason given above.
- Replicas.Replica.AcceptEntries: the program switches to the new log before it writes it and back if the write fails; the model switches after the write, under the same lock.
- Replicas.Replica.HandleChunk: that a chunk is cut from the map of its log prefix, and that a stream with the same leader, index and term comes from the same snapshot, is required; `Transfers.CutIsChunkOf`, `Requests.ChunksAreCut` and `Requests.ChunksAreInStep` show that it holds in every run.
- Replicas.Replica.FinishInstall: that the snapshot agrees with what is committed is required, which `Requests.ChunksAreInStep` shows of careful runs, and that no compaction or apply is between its halves, which the program's locks see to.
- Replicas.Replica.BeginApply: the branch for an applied index under the snapshot is left out, because it cannot be reached.
