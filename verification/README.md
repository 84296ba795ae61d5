# Redon, modelled and proved in Dafny

Redon is a distributed key-value store: a line protocol over TCP, an in-memory LRU engine with a
write-ahead log, an append-only disk engine, a hashing router over shards, leader-to-follower
replication, Raft leader election, and a thread pool under the server. This project models the
state machines behind those parts and proves what they promise over every run. `dafny verify
dfyconfig.toml` checks all of it.

All engines share one specification, a finite map changed by one mutation at a time
(`KeyValue.dfy`). Bytes are bytes: records carry their real decimal length prefixes, lines their
real separators, the replication stream is a byte stream cut into arbitrary chunks.

| files | part of the system |
|---|---|
| `RaftNode`, `RaftCluster`, `RaftElections` | one node's handlers as a class; the cluster as a transition system over nodes and messages that may be lost, delayed, duplicated or reordered; the elections that its runs can hold |
| `Emission`, `ReplicationLink`, `Replication` | what a leader hands to its replicator; the link's critical sections; leader, link, sender thread, wire and follower as one machine |
| `Streams`, `Records`, `Recovery` | formatted stream extraction, the record format, the two record readers, the recovery scan |
| `DiskIndex`, `DiskSizes`, `DiskCompaction`, `DiskStore`, `DiskRuns` | the disk engine: offsets, sizes, compaction, the class, its lifetimes with crashes at any byte |
| `LruCache`, `LruClock`, `Storage`, `WriteAheadLog`, `WalRuns`, `WalWrites`, `WalTrims`, `WalLifetimes`, `EvictionCrash`, `TornTail` | the cache as a value, its timestamp specification, the linked form with its index, the log, runs with failing logs, the records of one request, what an unlogged trim leaves in the log, lifetimes with crashes at any byte, a crash inside an evicting request, torn log tails |
| `Framing`, `Command`, `Lines`, `Execution`, `Replies`, `Router`, `Hashing`, `Sessions` | line splitting, tokenizers and commands, what a line means in bytes, execution on a store, what a reply means, forwarding, how the hash spreads keys, whole sessions at one node and at the router |
| `ThreadPool` | workers, condition variable, bounded queue, draining shutdown |
| `ByteStrings`, `KeyValue`, `Counting` | shared vocabulary |

Code that changes things in place is a class (`RaftNode.Node`, `DiskStore.Store`,
`Storage.Storage`, `WriteAheadLog.Wal`, `ReplicationLink.LinkState`, `Framing.Connection`,
`ThreadPool.Tasks`) whose methods are proved against functions on values; the properties over
whole runs are then proved of those functions. Steps taken under a lock are atomic steps of the
machines, and everything the code does with the lock released (an RPC, a send, running a task) is
separated into steps that interleave freely.

A failing device is modelled by the number of bytes it still takes: an append succeeds if its
record fits with something to spare, and otherwise leaves an arbitrary prefix of the record
(possibly all of it) and marks the log or store as failed. Every contract holds for every such
number, which makes the moment of failure adversarial.

Where the code and its comments differ, the model follows the code:

- The router's hash starts from 1469598103934665603, which is not the published 64-bit FNV offset
  basis. The model uses the constant as written; nothing depends on its being FNV.
- The disk engine heals a torn tail before appending (src/disk_store.cpp:191-208); the write-ahead
  log does not (src/wal.cpp:105-110). `TornTail.NextWriteSurvives` states exactly when a log
  reopened after a crash keeps its next record, and `TornTail.TornKeySwallowsNextWrite` gives the
  inputs for which the next record becomes the value of another key.
- The trim that ends a replay is not logged (src/storage.cpp:200-207), and the comment there says
  that it only matters when the capacity was reduced. `WalRuns.LoadExact` states exactly when it
  removes nothing, and `WalTrims.TrimmedEntriesReturn` exactly when a later start brings trimmed
  entries back. A SET that evicts appends two records, and a crash between them leaves one entry too
  many in a healthy log, at unchanged capacity: `WalLifetimes.RestartServes` states exactly when a
  restart is still right, and `EvictionCrash.CrashBetweenAppends` gives an input on which it is not.
- Neither engine checks that a field is within the 256 MiB cap that recovery enforces, nor the
  in-memory engine that it is not empty. `Recovery.AppendKept` and `WalWrites.SetIsLogged` state
  exactly which writes a restart finds again.
- A follower takes the replication handshake from any client, although the comment at
  src/command.cpp:114-120 says that an ordinary client cannot wipe data with it. The link machine has
  that step; the promises about a follower hold while no other client has made a handshake since the
  leader's last, and `Replication.ForeignHandshakeEmpties` says what happens otherwise.
- A record's true overhead may exceed the 24 bytes that the compaction estimate charges
  (src/disk_store.cpp:212-214): it is at most 25. The threshold is still sound, by
  `DiskSizes.CompactionPaysOnce`.

## Model

| member | source | states |
|---|---|---|
| RaftNode.Node.constructor | src/raft.cpp:94-106 | The peer filter keeps each configured id other than the node's own exactly once, whatever duplicates or self-references the configuration holds. |
| RaftNode.Node.StepDown | src/raft.cpp:259-265 | Stepping down adopts the term and clears vote and known leader. |
| RaftNode.Node.HandleRequestVote | src/raft.cpp:273-291 | New state and reply are those of the vote rule on which the cluster proofs rest: newer terms adopted first, one candidate per term. |
| RaftNode.Node.HandleAppendEntries | src/raft.cpp:293-309 | New state and reply are those of the heartbeat rule: stale terms refused without effect, the sender adopted as leader otherwise. |
| RaftNode.Node.BeginElection | src/raft.cpp:186-195 | A bid raises the term by one, votes for the node itself and forgets the leader. |
| RaftNode.Node.CountReply | src/raft.cpp:207-223 | What one vote reply does after the lock is taken again: abandoned if term or role moved on, stepped down for a newer term, won at a majority. |
| RaftNode.Node.NoteBeatReply | src/raft.cpp:248-255 | What one heartbeat reply does after the lock is taken again: the round goes on only while the node still leads the term it beats for. |
| RaftCluster.StepIsLawful | src/raft.cpp:183-309 | Every step of every node (bid, request, vote, count, heartbeat, obey, note, lost or failed RPC) changes the cluster only in ways that respect the votes already cast. |
| RaftCluster.CommitKeepsInv | src/raft.cpp:183-309 | Lawful changes keep the cluster invariant: one vote per node and term, counted votes really cast, every winner backed by a majority, known leaders really elected. |
| RaftCluster.RunKeepsInv | src/raft.cpp:183-309 | The cluster invariant holds in every state of every run. |
| RaftCluster.MajoritiesMeet | src/raft.h:85 | Two sets of the size that `majority()` asks for share a member. |
| RaftCluster.OneWinner | src/raft.cpp:183-228 | Two wins of one term in the cluster's history have the same winner. |
| RaftCluster.ElectionSafety | src/raft.cpp:183-228 | Election safety (section 5.2 and Figure 3 of Ongaro and Ousterhout, "In Search of an Understandable Consensus Algorithm"): in every run of every cluster, with any loss, delay, duplication or reordering of messages, at most one node has ever become leader in a term. |
| RaftCluster.LeaderKnowledgeAgrees | src/raft.cpp:293-309 | In every reachable state a known leader is the winner of the node's current term, a leader knows itself, and two nodes of one term that know a leader know the same one. |
| RaftCluster.LeaderKeepsItsTerm | src/raft.cpp:293-309 | No heartbeat that can reach a leader in its own or an older term changes the leader's state at all. |
| RaftCluster.LonerNeverLeads | src/raft.cpp:201-224 | Leadership is taken only on a peer's reply: a cluster of one never elects anybody. |
| RaftCluster.TermsOnlyGrow | src/raft.cpp:259-309 | No step lowers any node's term, and within a term no cast vote is changed or withdrawn. |
| RaftCluster.FilteredPeersOk | src/raft.cpp:94-106 | The filtered list of a node configured with all members is exactly the others, each once, which is what the vote count needs. |
| RaftCluster.VoteGranted | src/raft.cpp:273-291 | In every reachable state a vote request is granted if and only if it is not stale and the voter has cast no vote for anybody else in that term, said of the history of votes; a granted vote is recorded in the request's term, a refused request changes nothing. |
| RaftCluster.VoteSpreadsTerm | src/raft.cpp:273-291 | After a vote request the voter is in the newer of its own and the request's term. |
| RaftCluster.BeatSpreadsTerm | src/raft.cpp:293-309 | After a heartbeat that is not stale the receiver follows its sender in its term; with its vote kept only within one term; a stale one changes nothing. |
| RaftCluster.CandidateStepsDown | src/raft.cpp:207-223 | A candidate that meets a newer term in a vote reply becomes a follower in that term and gives up its election. |
| RaftCluster.LeaderStepsDown | src/raft.cpp:248-255 | A leader that meets a newer term in a heartbeat reply becomes a follower in that term and ends its round. |
| RaftElections.Campaign | src/raft.cpp:183-228 | A member that no other is ahead of can win the next term by asking half as many peers as there are members, rounded down: a majority less itself. |
| RaftElections.Announce | src/raft.cpp:230-257 | A winner can make itself the known leader of all members with one round of heartbeats. |
| RaftElections.Depose | src/raft.cpp:230-257 | A leader that some peer has left behind can learn so from a heartbeat's reply and become a follower. |
| RaftElections.AnyoneCanLead | src/raft.cpp:183-309 | From every reachable state, every member of a cluster of two or more can come to lead it in a term in which all others follow it. |
| RaftElections.FirstElection | src/raft.cpp:183-228 | From the start, every member can be elected in term 1, asking only as many peers as a majority needs besides itself. |
| ReplicationLink.LinkState.constructor | src/replication.cpp:98-109 | A link starts with nothing queued and all flags off. |
| ReplicationLink.LinkState.Push | src/replication.cpp:145-163 | One link's enqueue is the function that the link machine steps by: ignored before the cut, queued while there is room, otherwise the whole backlog dropped and a resync asked for; the backlog never passes its bound. |
| ReplicationLink.LinkState.StartStreaming | src/replication.cpp:195-201 | The callback of the atomic cut leaves an empty backlog, no pending resync, streaming on. |
| ReplicationLink.LinkState.Take | src/replication.cpp:219-234 | The send loop's critical section is the function by which the machine pops, idles or gives up: it gives up on a stop or a pending resync, which it clears, and otherwise removes the oldest line and nothing else. |
| ReplicationLink.LinkState.CleanUp | src/replication.cpp:245-253 | The end of a connection stops streaming, drops the backlog and reports whether to stop. |
| ReplicationLink.LinkState.Shutdown | src/replication.cpp:121-127 | Asks the sender thread to stop, changing nothing else. |
| Emission.SetEmits | src/storage.cpp:28-73 | A SET changes the leader's contents by exactly the mutations it hands to the replicator, evictions included, in order, whatever the log does. |
| Emission.GetEmits | src/storage.cpp:75-88 | A GET hands nothing over and changes no contents. |
| Emission.DelEmits | src/storage.cpp:90-125 | A DEL hands over exactly what it removes, and nothing if the key is absent or the log refuses. |
| Emission.EvictAllEmits | src/storage.cpp:210-229 | Each logged eviction is handed over as a DEL of the key it drops. |
| Emission.LineEmits | src/command.cpp:95-239 | The same for any client line on a leader; everything handed over can be carried by the line protocol. |
| Replication.HandKeepsInv | src/replication.cpp:145-163 | Each enqueue of a request, of its SET or of an eviction's DEL, is a step of its own between which the sender and the follower may move; it keeps the link invariant, also when it overflows the backlog in the middle of the request. |
| Replication.StepKeepsInv | src/replication.cpp:165-266 | Every step (client request, enqueue, handshake, cut, snapshot line, pop, send, heartbeat, overflow, break in mid-line, cleanup, shutdown, delivery of any chunk, any line of any other client of the follower) keeps the link invariant. |
| Replication.RunKeepsInv | src/replication.cpp:165-266 | The link invariant holds in every state of every run; after a handshake the follower owes nothing to what it held before. |
| Replication.Convergence | src/replication.cpp:193-241 | While a link streams and no other client has made a handshake since, the follower's engine, executing the lines in flight, the unsent snapshot lines, the held line, the backlog and what the request under way has still to hand over, ends up with the leader's current map. |
| Replication.DrainedIsEqual | src/replication.cpp:193-241 | Then a drained link means equal maps. |
| Replication.NoGap | src/replication.cpp:203-256 | The live lines of a connection are, heartbeats aside, a prefix of the leader's mutations since the cut, even when the backlog overflowed during the snapshot or a send. |
| Replication.PrefixConsistency | src/replication.cpp:193-256 | Connected or not, a follower that no other client has touched holds either the first pairs of the last snapshot, or that snapshot and a prefix of the mutations since. |
| Replication.EveryRunConverges | src/replication.cpp:165-266 | `Convergence` and `DrainedIsEqual` in every run, from any contents of the follower and any contents of the leader that came in on lines. |
| Replication.EveryRunIsPrefixConsistent | src/replication.cpp:165-266 | `NoGap` in every such run that has made a handshake, and `PrefixConsistency` while no other client has touched the follower since. |
| Replication.CanCatchUp | src/replication.cpp:165-266 | From every reachable state of a replicator not shutting down, also after other clients' handshakes, there is a continuation by sender and follower alone, reconnecting if needed, that drains the link and makes the maps equal. |
| Replication.OverflowResyncs | src/replication.cpp:219-234 | In every reachable state: a link that does not stream has no backlog; if its connection is up, a resync is pending, and in the send loop the sender can neither pop nor ping, only leave to sync afresh. |
| Replication.BacklogBound | src/replication.cpp:145-163 | A streaming link keeps each line, in order, until one finds 100,000 others waiting, and is dropped by that one and no other. |
| Replication.CanStop | src/replication.cpp:121-136 | From every reachable state in which a stop was asked for, the sender's own steps end its thread, without the connection having to fail and without a new one. |
| Replication.RunLinesIsMap | src/command.cpp:158-214 | The follower's unbounded engine, executing any lines on the leader's link, is a map to which the lines are applied. |
| Replication.VisitKeepsInv | src/command.cpp:114-164 | Whatever line an ordinary client of the follower sends, the link invariant stands; only a handshake marks the follower as touched. |
| Replication.ForeignKeepsInv | src/command.cpp:158-164 | So it does for every line of a client that has made a handshake and writes. |
| Replication.UndisturbedRun | src/command.cpp:121-135 | In runs in which nobody but the leader makes a handshake the follower is never touched. |
| Replication.ForeignHandshakeEmpties | src/command.cpp:121-135 | A handshake by anybody else empties a follower that is level with its leader: they stay level if and only if the leader holds nothing. |
| Replication.PingsDoNothing | src/replication.cpp:216-241 | Heartbeats among the lines make no difference to the follower. |
| Replication.OpLinesApply | src/replication.cpp:91-94 | Executing the printed lines of carriable mutations does to any map what the mutations do. |
| Replication.PairLinesApply | src/replication.cpp:203-209 | Executing a snapshot's lines adds exactly the snapshot's pairs, in whatever order they are listed. |
| Streams.TokenStable | src/wal.cpp:48 | A word that ends inside a prefix of a file reads the same in the prefix and in the file. |
| Streams.SizeStable | src/wal.cpp:52 | The same for a decimal length. |
| Streams.TokenWritten | src/wal.cpp:112-127 | A written word followed by a space reads back. |
| Streams.SizeWritten | src/wal.cpp:112-127 | A length printed in decimal reads back as that number and stops at the following space, exactly if 64 bits hold it. |
| Streams.SignedSize | src/wal.cpp:52 | A length may carry a sign, and a minus wraps modulo 2^64, as extraction into an unsigned number does. |
| Records.WalReadStable | src/wal.cpp:46-102 | A record accepted in a prefix of a file is accepted in the file, and conversely when it ends inside the prefix. |
| Records.WalReadWritten | src/wal.cpp:112-143 | Record round trip: the record of a storable mutation reads back as that mutation and ends where it was written to end, wherever it stands in a file. |
| Records.UnstorableRejected | src/wal.cpp:55-60 | A whole record with an empty field or one over 256 MiB reads back as nothing. |
| Records.TornRecordRejected | src/wal.cpp:46-102 | No strict prefix of a record parses as a record. |
| Records.SkippingReaderRefines | src/disk_store.cpp:157-188 | The reader that skips values accepts exactly the records that the reader of whole values accepts, ends where it ends, and notes the place where the value stands. |
| Recovery.ScanStorable | src/disk_store.cpp:155-188 | Whatever bytes are scanned, only records with sane non-empty fields are accepted. |
| Recovery.TornPrefix | src/wal.cpp:46-102 | Behind any clean file, of every byte prefix of every list of records the scan accepts exactly the complete records and stops at their end. |
| Recovery.HealedFile | src/disk_store.cpp:191-208 | Cutting any file at the end of its last complete record loses no record and leaves a file that scans to its end. |
| Recovery.AppendWhole | src/disk_store.cpp:44-65 | A record appended to such a file is the one more record of its history. |
| Recovery.AppendTorn | src/disk_store.cpp:44-65 | A partly appended record adds nothing, and the scan ends where it began. |
| Recovery.AppendKept | src/disk_store.cpp:44-65 | A whole record appended to a clean file is found again, and leaves the file clean, if and only if its fields are neither empty nor over the cap of 268,435,456 bytes. |
| Recovery.AppendUnstorable | src/disk_store.cpp:155-188 | Behind such a record nothing appended later is found either. |
| Recovery.RecoveredStorable | src/disk_store.cpp:155-188 | Whatever a file recovers to, a compaction can write back. |
| DiskIndex.IndexReads | src/disk_store.cpp:151-188 | For any bytes, reading every value through the offsets that the scan rebuilds gives exactly the replayed contents. |
| DiskIndex.WrittenLocated | src/disk_store.cpp:157-188 | The offset and length found for a written record are those of its value. |
| DiskIndex.IndexAppend | src/disk_store.cpp:44-65 | Updating the live index at an append gives the index that a rescan of the longer file would build. |
| DiskIndex.SnapshotIsolation | src/disk_store.cpp:114-149 | Offsets captured from one file give that file's contents in any later extension of it. |
| DiskSizes.RecordOverhead | src/disk_store.cpp:54-58 | A record is longer than its fields by 7 and their two digit counts, at most 25. |
| DiskSizes.SumAnyOrder | src/disk_store.cpp:210-214 | The sum of live bytes does not depend on the order in which the index is visited. |
| DiskSizes.EstimateCoversCompaction | src/disk_store.cpp:210-214 | The compacted size is at most 27/26 of the estimate, for any contents. |
| DiskSizes.EstimateIsPayload | src/disk_store.cpp:210-214 | The estimate of live bytes is the bytes of all live keys and values and 24 for each key, in whatever order the index is walked. |
| DiskSizes.CompactionPaysOnce | src/disk_store.cpp:210-218 | When the threshold fires, compaction saves more than 4096 bytes, and on the compacted file it never fires. |
| DiskCompaction.CompactPrefix | src/disk_store.cpp:230-243 | A compaction interrupted after any number of keys, in any order, has written a clean file of exactly those pairs. |
| DiskCompaction.CompactionPreserves | src/disk_store.cpp:221-268 | For any iteration order of the index the compacted file recovers to the same contents and has exactly the predicted size. |
| DiskCompaction.RecoveryPreserves | src/disk_store.cpp:151-219 | A recovery, with or without its compaction, and the healed file in between, recover to the contents of the file they started from. |
| DiskCompaction.RecoverySettles | src/disk_store.cpp:210-218 | Recovering again without writes changes nothing; a recovery that rewrote the file made it more than 4096 bytes smaller. |
| DiskCompaction.RecoveryBounds | src/disk_store.cpp:210-218 | A restart leaves a file of at most twice the payload and 48 bytes for each key, and 4096; it leaves the healed file alone if and only if that is within the bound. |
| DiskStore.Store.constructor | src/disk_store.cpp:19-27 | Opening any file serves exactly its replayed contents and leaves a file that recovers to them. |
| DiskStore.Store.ValidServes | src/disk_store.cpp:67-76 | While the index is the one a rescan would build, what is served is what a restart would find. |
| DiskStore.Store.ReadValue | src/disk_store.cpp:29-42 | The bytes at an offset, or failure if they reach past the end of the file. |
| DiskStore.Store.Append | src/disk_store.cpp:54-63 | An append succeeds exactly if the device takes it all, and otherwise leaves a prefix of the record and fails the store. |
| DiskStore.Store.Set | src/disk_store.cpp:44-65 | On any store whose offsets lie in its file: empty fields and a failed store are refused without effect, success puts the pair into what is served, a failing device leaves what is served alone and fails the store. The index stays the one a rescan would build, and a restart finds the write, if and only if its fields are within the cap. |
| DiskStore.Store.Get | src/disk_store.cpp:67-76 | The value served, on any such store; nothing on a failed one. |
| DiskStore.Store.Del | src/disk_store.cpp:78-98 | As `Set`, for removal; an absent key writes nothing. |
| DiskStore.Store.SnapshotIndex | src/disk_store.cpp:114-122 | Every entry of the index, once. |
| DiskStore.Store.ReadSnapshot | src/disk_store.cpp:124-149 | Every captured entry, read through the current file. |
| DiskStore.SnapshotReads | src/disk_store.cpp:114-149 | A snapshot captured at the cut and read after any number of appends is a listing of the contents at the cut. |
| DiskStore.Store.ScanFile | src/disk_store.cpp:151-208 | Scan and heal: the healed file and its index. |
| DiskStore.Store.MostlyGarbageNow | src/disk_store.cpp:210-218 | The threshold test on the actual index; `DiskCompaction.RecoveryBounds` says what it achieves. |
| DiskStore.Store.Compact | src/disk_store.cpp:221-268 | A file that is a compaction of the old one in some order, with the offsets that a rescan of it would build. |
| DiskStore.Store.Recover | src/disk_store.cpp:151-219 | Recovery as a whole leaves a file reachable by `RecoveryPreserves` and its index. |
| DiskRuns.CutOffSurvives | src/disk_store.cpp:44-65 | A crash after any number of bytes of an append recovers to the contents before, or after if no byte was missing. |
| DiskRuns.StepKeepsInv | src/disk_store.cpp:151-208 | Acknowledged writes, cut-off writes, kills, deaths during recovery and restarts all keep the durability invariant. |
| DiskRuns.RestartServes | src/disk_store.cpp:151-208 | A restart serves the acknowledged contents, or those and the one operation in flight at the crash. |
| DiskRuns.Durable | src/disk_store.cpp:151-208 | The durability invariant over any number of crashes and restarts. |
| DiskRuns.StepExplained | src/disk_store.cpp:44-98 | What each kind of step does to the contents a recovery would find. |
| DiskRuns.RunExplained | src/disk_store.cpp:44-98 | The contents after a run are its acknowledged operations in order, each cut-off operation either whole or absent. |
| DiskRuns.EveryLifetime | src/disk_store.cpp:19-98 | The same from any bytes found on disk; while the store is up it serves exactly what a recovery would find. |
| WriteAheadLog.Wal.AppendSet | src/wal.cpp:112-127 | Failure is sticky; a successful append adds exactly one SET record. |
| WriteAheadLog.Wal.AppendDel | src/wal.cpp:129-143 | The same for a DEL record. |
| WriteAheadLog.Wal.Write | src/wal.cpp:112-143 | A record that does not go out whole leaves some prefix of itself and fails the log. |
| TornTail.NextWriteSurvives | src/wal.cpp:105-110 | A log reopened behind a torn record keeps the next record if and only if no byte of the torn one is there. |
| TornTail.TornKeySwallowsNextWrite | src/wal.cpp:105-110 | If a record with any value of the right length is torn right behind its key, the next record is replayed as that key's value: neither the record appended nor, unless its value was that very text, the one torn. |
| TornTail.ReadsToTheEnd | src/wal.cpp:46-102 | Any record that starts in a torn tail swallows the whole of the record appended behind it. |
| TornTail.HeaderShape | src/wal.cpp:48-66 | No header reaches into another record's word: behind its first byte it holds no capital letter before its body. |
| LruCache.TouchContents | src/storage.cpp:49-57 | Moving an entry to the front with a new value changes that one key of the map and keeps keys distinct. |
| LruCache.BackContents | src/storage.cpp:210-229 | Dropping the back entry removes exactly its key. |
| LruCache.HasIsContents | src/storage.cpp:127-133 | Membership in the list is membership in the map, with the listed value. |
| LruCache.GetKeepsView | src/storage.cpp:75-88 | A read reorders the list and leaves the map alone. |
| LruCache.EvictAllKeepsFront | src/storage.cpp:65-70 | The eviction loop keeps a front of the list, never less than fits, and more than fits exactly if the log failed in it. |
| Storage.Storage.constructor | src/storage.cpp:13 | A fresh engine is empty, live and detached from any log. |
| Storage.Storage.SameSize | src/storage.cpp:65-70 | The index is as large as the list, so an eviction loop driven by the index size always finds an entry to drop. |
| Storage.Storage.FindsNode | src/storage.cpp:49-57 | The index finds a key exactly if the list has it, and then its very node. |
| Storage.Storage.EvictLru | src/storage.cpp:210-229 | Drops the back entry after logging and handing over its DEL, or nothing at all if the log refuses. |
| Storage.Storage.Touch | src/storage.cpp:49-57 | Splicing a node to the front and writing its value in place keeps list and index a bijection and is `LruCache.Touch` on the listing. |
| Storage.Storage.PushFront | src/storage.cpp:59-62 | Inserting keeps the bijection and puts the pair in front. |
| Storage.Storage.EvictExcess | src/storage.cpp:65-70 | The eviction loop terminates and evicts down to capacity, or stops at the first refusal. |
| Storage.Storage.Set | src/storage.cpp:28-73 | The linked engine refines the cache as a value: log first, refuse without effect, then update, hand over, evict. |
| Storage.Storage.Get | src/storage.cpp:75-88 | Finds the value the map holds and makes its entry the most recent. |
| Storage.Storage.Del | src/storage.cpp:90-125 | Reports 1 exactly for a key that was present and durably removed; keeps everything otherwise. |
| Storage.Storage.Erase | src/storage.cpp:122-123 | Removing a node from list and index keeps the bijection and drops that one entry. |
| Storage.Storage.Exists | src/storage.cpp:127-133 | Membership, leaving recency alone. |
| Storage.Storage.Clear | src/storage.cpp:187-195 | Empties the contents. |
| Storage.Storage.SnapshotLocked | src/storage.cpp:153-185 | In one critical section, a copy of the listing and the start of the link's stream. |
| Storage.Storage.SetReplaying | src/storage.cpp:197-208 | Leaving replay mode trims to capacity without logging. |
| Storage.ReplayInto | src/wal.cpp:32-103 | Replay applies exactly the complete records of the log, in order, with eviction suppressed, counts them, and trims once at the end. |
| WalRuns.SetLive | src/storage.cpp:28-73 | With any outcome of the appends, memory stays the replay of the appends that succeeded, the log's bytes stay those records and at most one torn one, and the size stays within capacity, or one over once the log has failed. |
| WalRuns.GetLive | src/storage.cpp:75-88 | The same for reads, which change no contents. |
| WalRuns.DelLive | src/storage.cpp:90-125 | The same for removals. |
| WalRuns.RunStaysLive | src/storage.cpp:28-125 | The same over any sequence of requests. |
| WalRuns.FailureIsSticky | src/storage.cpp:41-48 | Once the log has failed, every mutation of contents is refused and nothing is handed over. |
| WalRuns.ReplayApplies | src/wal.cpp:32-103 | Replay into an engine in replay mode applies the records to its contents, evicting nothing. |
| WalRuns.LoadExact | src/storage.cpp:197-208 | Starting from any log serves exactly its contents if and only if they fit the capacity. |
| WalRuns.RestartExact | src/wal.cpp:32-103 | A restart between two requests of an engine on a healthy log whose contents are all that its log holds, as after a start that trimmed nothing, serves the contents that were live. |
| WalRuns.LoggedEvictionIsExact | src/storage.cpp:28-88 | From an empty log, for every run of set, get and del on a bounded cache: the log replays to the live map and the trim removes nothing, although reads steer evictions and are never logged; after a failure memory is the replay of the acknowledged mutations and the log holds at most one record more. |
| WalWrites.SetIsLogged | src/storage.cpp:41-47 | A SET that the device takes is found again by a replay if and only if neither field is empty or over the cap. |
| WalWrites.ServeUsable | src/storage.cpp:28-125 | Every request on any device leaves distinct storable keys, within capacity or one over once the log has failed. |
| WalWrites.ServeApplies | src/storage.cpp:28-125 | A request that meets no failure changes the contents by exactly its records, and hands the same to the replicator. |
| WalWrites.WritesShaped | src/storage.cpp:41-70 | The records one request appends: at most two, and two only for an insert into a full cache, with the removal of another key behind it. |
| WalWrites.ServeWrites | src/storage.cpp:28-125 | On any device a request extends the log by its records or by a prefix of them, and memory is unchanged by a prefix, or has the first of two applied if that one is whole. |
| WalTrims.ReplayedMore | src/wal.cpp:46-102 | If a log lists some contents and behind them other entries, then more records of the engine change the contents as they say and take out of the other entries exactly those whose keys they put. |
| WalTrims.UnwrittenMeans | src/storage.cpp:200-207 | The trimmed entries still in the log are those whose keys no record since has put. |
| WalTrims.LoadLists | src/storage.cpp:197-208 | A start on such a log serves the contents and as many of the other entries as there is room for. |
| WalTrims.TrimmedEntriesReturn | src/storage.cpp:197-208 | For every clean log, capacity and run that meets no failure, the next start serves the live contents and the trimmed entries that nobody has written since, as many as there is room for; it is exact if and only if there is no such entry or the cache is full. |
| WalLifetimes.StepKeepsInv | src/storage.cpp:28-125 | Requests on any device, a crash after any byte of either record of a request, kills, and restarts on any log that ends at a record boundary, fitting or not, keep the lifetime invariant. |
| WalLifetimes.RestartServes | src/storage.cpp:197-208 | A restart serves what clients were told of, or that and the whole request in flight, if and only if: between an insert and the end of its eviction's record, the least recently used key is also the least recently written; elsewhere, no trimmed entry comes back, or only the very pair that the lost request was to write. |
| WalLifetimes.UntrimmedRestart | src/storage.cpp:197-208 | Where no trimmed entry is left in the log, only a crash between the two records can make a restart wrong. |
| WalLifetimes.LeastWrittenIsOldest | src/wal.cpp:46-102 | The key that a restart between the two records drops is, of those a start would keep, the one whose last write in the log is oldest. |
| WalLifetimes.EveryLifetime | src/storage.cpp:28-229 | `RestartServes` after every lifetime that started, and every time restarted, on a log that ends at a record boundary. |
| EvictionCrash.ReachesCaught | src/storage.cpp:41-70 | SET a, SET b, GET a on a cache for two keys, then SET k killed when its first record is written: a run of the machine. |
| EvictionCrash.CrashBetweenAppends | src/storage.cpp:197-208 | The restart after it serves k and b: neither the acknowledged a and b nor the finished request's k and a. |
| EvictionCrash.TrimmedKeyReturns | src/storage.cpp:197-208 | The machine's lifetime goes on, and by `TrimmedEntriesReturn` the trimmed key is back: after DEL k the engine serves b alone, and the next restart serves a again. |
| LruClock.BackIsOldest | src/storage.cpp:210-229 | The back of the list is the key with the oldest use. |
| LruClock.ServeRefines | src/storage.cpp:28-125 | One request on the list, whatever the log does, is one request on a map of last-use times: a refused mutation changes nothing, an insert drops the oldest keys, as many as the log let go. |
| LruClock.ServePermitted | src/storage.cpp:41-73 | What the log may let happen: failure lasts and alone refuses, and an insert leaves exactly what fits unless the log failed within its evictions. |
| LruClock.LruRefinesClock | src/storage.cpp:28-125 | Both over every run, wherever the log fails: list order is last-use order throughout, and every eviction took the key unused for longest. |
| LruClock.GoodRunRefinesClock | src/storage.cpp:28-125 | The corollary for good logs: the same as a cache of last-use times that evicts down to its capacity. |
| LruClock.EmptyRelated | src/storage.cpp:13 | A fresh engine is where such a run can start. |
| LruClock.LoadRelated | src/wal.cpp:32-103 | So is an engine started from any log: its order is that of the last write to each key, and it holds the most recent that fit. |
| LruClock.EveryRunIsLru | src/storage.cpp:28-229 | The refinement for every run from every log, capacity and device. |
| LruClock.VictimIsOldest | src/storage.cpp:59-70 | Inserting into a full cache drops exactly the entry with the oldest use, never the one inserted; if the insert is refused nothing changes, if the eviction is refused nothing is dropped. |
| Framing.Connection.Feed | src/server.cpp:440-448 | A received chunk yields exactly the lines it completes; the unfinished rest is kept. |
| Framing.SplitConcat | src/server.cpp:440-448 | Splitting a stream in two pieces with the rest carried over finds the lines of the whole. |
| Framing.ChunkingIsInvisible | src/server.cpp:440-448 | However the network cuts a stream into chunks, the same lines come out. |
| Command.Trim | src/command.cpp:37-62 | The loops trim white space at both ends and one byte order mark with the white space behind it. |
| Command.NextToken | src/command.cpp:75-87 | The token up to white space, and the position behind that white space. |
| Command.ToUpper | src/command.cpp:64-70 | Upper case byte by byte. |
| Command.VerbAndKey | src/server.cpp:97-128 | The router's scanner computes its two words. |
| Command.TokenizersAgree | src/server.cpp:97-128 | For every byte string, the router's verb and key are the verb and key that the shard computes. |
| Command.WireRoundTrip | src/replication.cpp:91-94 | A printed mutation is one line and parses back as exactly that mutation. |
| Command.ParsedIsPrintable | src/command.cpp:95-112 | Every mutation that a newline-free line asks for can be printed again, so hops from leader to follower lose nothing. |
| Command.PingLine | src/command.cpp:223-228 | The heartbeat line is the PING command. |
| Lines.SpelledUpper | src/command.cpp:64-70 | A word is upper-cased to a given name if and only if it is that name with each letter in either case. |
| Lines.LineTrims | src/command.cpp:37-62 | Trimming leaves the text between any blanks, with or without one byte-order mark among the leading ones. |
| Lines.BareLine | src/command.cpp:95-239 | What a line of one word means, for every verb in every mixture of cases and whatever blanks or byte-order mark surround it; unknown verbs are reported as such. |
| Lines.KeyLine | src/command.cpp:95-239 | The same for a verb and a key: GET, EXISTS, DEL and DELETE are about that key, and the others have a wrong number of arguments. |
| Lines.ValueLine | src/command.cpp:95-239 | The same for a verb, a key and a rest: SET stores the rest whole, inner blanks included. |
| Lines.BlankLine | src/command.cpp:95-101 | A line of blanks, with or without a byte-order mark, is no command. |
| Execution.ExecuteLine | src/command.cpp:95-239 | Executing a line on the linked engine is running the parsed command on the cache as a value, with the same reply, close flag and link flag. |
| Execution.Dispatch | src/command.cpp:121-239 | The verb chain takes, for every verb and argument count, the branch of the command it spells. |
| Execution.RunIsMap | src/command.cpp:175-222 | On an unbounded engine without a log each command is an operation on a map: its reply and its effect depend on the map alone. |
| Execution.ReplicaIsReadOnly | src/command.cpp:121-135 | On a follower's ordinary connection only the handshake changes contents, by emptying them; every other line leaves contents, log and hand-over alone. |
| Replies.SetReply | src/command.cpp:175-185 | On every engine, with any log: SET is answered OK if and only if it was handed to the replicator, and then it is stored and logged; it is answered with the error if and only if the log refused it, and then nothing but the log has changed. |
| Replies.DelReply | src/command.cpp:204-214 | On every engine, with any log: DEL is answered 1 if and only if the key was there and its removal is durable, 0 if and only if it was absent, with the error otherwise, and then nothing but the log has changed. |
| Replies.ReadReply | src/command.cpp:187-221 | On every connection of every node GET and EXISTS answer from the contents; GET makes its key the most recent, EXISTS changes nothing. |
| Replies.OnlyQuitCloses | src/command.cpp:230-236 | Exactly QUIT closes the connection. |
| Replies.ErrorsChangeNothing | src/command.cpp:95-239 | A command answered with an error has changed no contents and handed nothing over. |
| Replies.WritesAreRefused | src/command.cpp:158-164 | On a follower's ordinary connection SET and DEL, well-formed or not, are refused as read-only, and no other command is. |
| Replies.ErrorsAreMarked | src/server.cpp:477 | Error replies, and no other fixed reply, start with "ERR ", which is what the metrics and the client look for. |
| Replies.RepliesOnTheWire | src/command.cpp:175-236 | The replies to data commands, byte by byte. |
| Replies.AcknowledgedSetSurvives | src/storage.cpp:41-70 | A SET answered OK on a good log survives: a restart right after it serves that value, at any capacity, also if the log failed while the request evicted, and whatever an earlier start had trimmed. |
| Replies.AcknowledgedDelSurvives | src/storage.cpp:112-124 | A DEL answered 1 on a good log survives: a restart right after it does not serve the key. |
| Router.ComputeHash | src/router.cpp:17-24 | The wrapping loop computes the hash of all bytes in order. |
| Hashing.TwoShards | src/router.cpp:17-24 | Of two shards a key goes to the second if and only if its bytes add up to an even number. |
| Hashing.EveryByteCounts | src/router.cpp:85-90 | Of 256 shards, two keys that agree but for one byte, anywhere, go to the same one if and only if they are equal. |
| Router.CommandKeyIsRouted | src/server.cpp:234-254 | The key a shard acts on is the key its line was routed by. |
| Router.DeliverableIsReceived | src/router.cpp:58-79 | A reply without line breaks and within the cap comes back whole. |
| Router.ReplyArrives | src/router.cpp:58-79 | A reply line of up to 131,072 bytes arrives, less a carriage return at its end; a longer one, or one without its newline, does not. |
| Router.ReplyIsDeliverable | src/router.cpp:58-79 | Every reply a shard can give to a line within the line cap is such a reply. |
| Router.ForwardKeepsPartition | src/router.cpp:85-113 | A forwarded line keeps every key on its own shard only, and the shards together equal to one store. |
| Router.RouteIsServe | src/server.cpp:234-254 | One line routed over unbounded engines gets the reply of a single engine and has its effect, on the shard of its key only. |
| Router.RunsAgree | src/server.cpp:234-254 | The same over any sequence of routable lines, from any engines that together hold what one holds. |
| Router.ShardedClusterIsOneStore | src/server.cpp:234-254 | For any number of fresh shards and any sequence of routable lines, the router's replies are those of one unsharded engine, and afterwards the shards together hold what it holds, each key on its own shard only. |
| Sessions.ReadYourWrite | src/command.cpp:175-202 | At one node, after any lines, a SET of a key answered OK and any lines that neither set nor delete that key, GET answers the value. |
| Sessions.ReadYourWriteRouted | src/server.cpp:234-254 | The same through the router, over any number of shards. |
| Sessions.SetThenGet | src/server.cpp:234-254 | In bytes, on a fresh cluster of any size: `SET k v` is answered `OK`, and then `GET k` is answered `v`, for every key and value that a line of 65,536 bytes can hold. |
| Sessions.RouterAnswersItself | src/server.cpp:234-254 | A line of one word reaches no shard: QUIT and EXIT, and only they, are answered OK and close, PING is answered PONG, anything else with an error. |
| Sessions.RouterIgnoresBlank | src/server.cpp:234-254 | A blank line, with or without a byte-order mark, gets an empty reply and reaches no shard. |
| ThreadPool.StepConserves | src/thread_pool.cpp:35-86 | Each step keeps: tasks taken and tasks queued are the accepted ones in order, and each taken one is running or finished, as often as it was accepted. |
| ThreadPool.StepKeepsWakeups | src/thread_pool.cpp:35-86 | Each step keeps: while a worker sleeps, there are no more queued tasks than notifications owed and workers about to look. |
| ThreadPool.StepStaysOrderly | src/thread_pool.cpp:20-86 | Each step keeps: workers leave only after the stop with the queue empty, the bound is respected, a completed broadcast leaves nobody asleep. |
| ThreadPool.RunKeepsInv | src/thread_pool.cpp:8-86 | All three over every run. |
| ThreadPool.RunKeepsCrew | src/thread_pool.cpp:8-18 | No run adds or removes a worker or changes the bound. |
| ThreadPool.NothingLost | src/thread_pool.cpp:8-86 | In every run: each accepted task is queued, running or finished exactly once; tasks start in order; queued work always has a notification pending or a worker awake; once all workers have left, every accepted task has finished; and the pool has the threads and the bound it was made with, one thread if it was asked for none. |
| ThreadPool.SomebodyAwake | src/thread_pool.cpp:46-62 | No lost wakeup: no state has queued work, no pending notification and nobody awake. |
| ThreadPool.DrainDecreases | src/thread_pool.cpp:20-33 | After the stop and its broadcast, each worker step uses up remaining work, and no step adds any. |
| ThreadPool.DrainProgresses | src/thread_pool.cpp:20-33 | After the stop and its broadcast, some worker can move as long as one has not left. |
| ThreadPool.DrainTerminates | src/thread_pool.cpp:20-33 | The number of worker steps after the stop is bounded by the work remaining at it. |
| ThreadPool.DrainEnds | src/thread_pool.cpp:20-33 | A run after the stop that has come to rest, with no worker able to move, has all workers gone, the queue empty and every accepted task finished. |
| ThreadPool.Tasks.constructor | src/thread_pool.cpp:8-18 | An empty, running pool, as the machine starts. |
| ThreadPool.Tasks.Submit | src/thread_pool.cpp:35-50 | The function that the machine submits by: taken exactly if not stopped and there is room, then queued last with one notification owed. |
| ThreadPool.Tasks.Take | src/thread_pool.cpp:56-71 | The function that the machine's workers check by: the oldest task; with none, leave if stopped, sleep otherwise. |
| ThreadPool.Tasks.Shutdown | src/thread_pool.cpp:20-27 | The function that the machine stops by: the stop flag set and one broadcast owed. |

## Left out

- Sockets, timeouts, keepalive and send/receive loops: RPCs and stream delivery are nondeterministic steps that may fail at any point.
- Clocks and randomized timeouts: any non-leader may bid at any step.
- RaftElections.AnyoneCanLead: a possible continuation, not a promise that timers and network bring it about.
- Raft crash-restart, because term and vote are not persisted (docs/PHASE6.md:154-157); Raft log replication does not exist in the repository.
- Raft configurations whose nodes disagree on the membership or use an empty id: the theorems assume that each filtered peer list is all other members, and that ids are not empty, since the empty string means "no vote".
- Overflow of the `long` term counter: terms are unbounded.
- Execution.ExecuteLine: models nodes outside a Raft cluster; the vote and heartbeat verbs, redirects to the leader and role reports of a Raft member are only text around `RaftNode`'s handlers.
- Execution.Dispatch: the same.
- A follower with its own capacity or log, which docs/PHASE5.md:148-150 advises against: the follower of the link is unbounded and unlogged.
- Two follower workers interleaving: the undelivered tail of an old connection is taken to be gone when the next handshake takes effect, which the code does not enforce.
- Several followers: links are independent and one is modelled; each mutation is queued on each link in turn.
- A disk-backed leader in the link machine: its leader is the in-memory engine. `DiskStore.SnapshotReads` covers the disk engine's part of the cut.
- Rejection of over-long lines, which depends on how bytes are chunked: lines are within the cap where the cap matters.
- Filesystem errors other than failed appends (open, resize, rename, unreadable values), power loss and fsync: a crash is a process crash.
- WalRuns.SetLive: the fields are non-empty and at most 256 MiB, as the protocol and the line cap guarantee; the engine does not check, and `WalWrites.SetIsLogged` shows that without it the agreement fails.
- WalRuns.RunStaysLive: the same for its SET requests.
- WalRuns.LoggedEvictionIsExact: the same for its SET requests.
- WalLifetimes.EveryLifetime: a lifetime goes on after a restart only if the log ended at a record boundary; what the restart itself serves is stated in every case, and `TornTail.NextWriteSurvives` states that behind a torn record the next write is lost.
- WalLifetimes.StepKeepsInv: the same for its restarts.
- WalRuns.RestartExact: engines whose own start trimmed entries are the subject of `WalTrims.TrimmedEntriesReturn`.
- TornTail.NextWriteSurvives: the appended record holds no newline in its fields, as no record that came in on a line does.
- Router.ShardedClusterIsOneStore: shards are reachable and unbounded, and lines have a key and a verb other than PING, QUIT, EXIT and INFO, for which the router deliberately answers by itself.
- The router's errors about unreachable or badly named shards, and the shard's address in the text of a failed request.
- Replication.CanStop: the same as the next line, for a sender that has been asked to stop.
- Replication.CanCatchUp: a possible continuation of a replicator that is not shutting down, not a promise that the scheduler takes it.
- Replication.EveryRunConverges: the leader starts with pairs that a line can carry, as all do that came in on lines; other pairs can only come from a log or file that this program did not write.
- Replication.EveryRunIsPrefixConsistent: the same.
- Storage.Storage.Touch: finds the node's place in the list by searching, where the code holds an iterator to it; the list is a sequence of nodes rather than linked cells.
- Clearing an engine beyond its contents becoming empty.
- Metrics, INFO text, the web gateway, command line, benchmark and scripts: counters, formatting and glue.
