# Verified model of the replicated key-value store

The repository is a key-value store replicated by a hand-written Raft node, with a framed write-ahead log and
checkpoints, a last-write-wins write buffer over a file store with a secondary-key index, and an LRU cache with a
time to live. This project models those five parts in Dafny and proves what each of them is for.
`dafny verify dfyconfig.toml` checks everything.

## How the files fit together

- **Raft.** `raft_types.dfy` holds the values and the pure transitions; `raft_node.dfy` is the node as a class whose
  methods are the locked sections of `internal/raft/node.go`, each proved to compute its transition.
  `raft_system.dfy` puts N such nodes and a set of messages together: messages may be delayed, duplicated, reordered
  or lost, and every step is one locked section in the order a node's main loop allows. `raft_invariant.dfy` states
  what every reachable state satisfies; `raft_quiet.dfy`, `raft_ballots.dfy`, `raft_leaders.dfy` and
  `raft_appends.dfy` show that each step keeps it, with the bookkeeping shared in `raft_step.dfy` and leader
  completeness in `raft_completeness.dfy`. `raft_safety.dfy` and `raft_effects.dfy` hold the theorems over runs, and
  `raft_hypothesis.dfy` a run that shows why one hypothesis is needed. The `history` of a system records ballots,
  leaderships and acknowledgements; no step reads it.
- **Write-ahead log.** `wal_codec.dfy` is the frame codec byte for byte, `wal_log.dfy` reading, tearing and repairing
  a file of frames, `wal_file.dfy` the log object with its sequence numbers, checkpoints and replay loop.
- **Recovery.** `write_batcher.dfy` is the write buffer. `recovery.dfy` puts log, checkpoint, buffer and store
  together as a state machine with crashes at every point, and `recovery_proof.dfy` proves the recovery theorem over
  its runs. `wal_load.dfy` has the code of `Load`; `adapter.dfy` has the adapter over log, buffer and cache and proves
  that whatever it does, failed calls and failed starts included, is a run of that machine, so the theorem holds of the
  code. `entities.dfy` holds the values they share, `wrappers.dfy` the option type and a few operations on sequences.
- **File store.** `file_store.dfy` has the single operations and the index invariant, `file_store_bulk.dfy` the bulk
  operations as refinements of them, `file_store_db.dfy` the code, `file_store_runs.dfy` the index over whole runs, and
  `file_store_tables.dfy` all tables together as the store behind the write buffer.
- **Cache.** `lru_cache.dfy` has the recency list, the code and the theorems; `cache_coherence.dfy` says what a Get
  through the cache answers, exactly when that is what the store says, and which calls spoil it.
- **Raft log file.** `raft_log_file.dfy` has the persisted entries and stable state, `raft_apply.dfy` the loop that
  applies an entry and then records it, as a state machine with crashes at every point and as code.

Objects the source updates in place are classes; every method's contract gives the new state as a function of the
old one, and the properties are proved about those functions and preserved invariants. The checksum and the value
codecs are parameters: CRC-32 is any function from bytes to 32 bits, and an encode/decode pair is assumed to be a
round trip (`Faithful`) where that matters.

## Hypotheses

Raft, all of them stated in `RaftSystem`:

- Node ids are distinct and non-empty, and each node's peers are exactly the others, without repeats (`Init`).
- Every locked section is atomic. `notifyMetaChange` releases the lock (internal/raft/node.go:650-658), so this
  holds of the handlers only when no persister is set.
- Nodes do not restart.
- A successful, non-empty reply is processed before the leader's log grows (`NotGrownSince`), because the code sets
  matchIndex from its log at reply time (internal/raft/node.go:538-539). Nothing in the code enforces this.
  `RaftHypothesis.LateReplyBreaksSafety` is a run of three nodes that meets every other hypothesis and in which two
  nodes deliver different commands at the same index.

Recovery, all of them stated in `Recovery`:

- Every append is durable when it returns, and a crash leaves a prefix of the bytes being appended.
- The log is loaded before it is appended to. Opening leaves the write offset at the start of the file, which
  `WalFile.Wal` models.
- A checkpoint never runs between the log append and the store call of the same operation, and finds the buffer
  flushed. The code does not enforce the first part: the automatic checkpoint runs inside `WAL.Set`
  (internal/wal/wal.go:74). `RecoveryProof.EarlyCheckpointLosesWrite` shows that such a checkpoint, a crash and a
  Load lose every write that would have changed something. The adapter is modelled with both automatic thresholds at
  zero, as cmd/node/setup/kv.go:46-52 leaves them (`NoAutoCheckpoint`).
- All entities of a logged batch can be encoded, unless the first cannot, keys are not empty, payloads have at most
  2^28 bytes, and fewer than 2^64 records are ever logged. The code enforces none of these.
  `RecoveryProof.HalfLoggedBatch`, `EmptyKeyMisread` and `OversizedWriteCutsLog` show what happens otherwise: a batch
  reported as failed comes back after a crash, an entity is read as something else, and the log is cut before the
  record.

Applied entries, stated in `RaftApply`:

- A node is given the committed entries in order, from the first that its file does not hold.
- Every append to the file is durable when it returns, its record has at most 2^28 bytes of payload, and fewer than
  2^64 are written. What an entry has done to the key map survives a crash change by change, as recovery guarantees.

## What does not hold as documented

- The frame round trip fails for payloads of 2^32 - 8 bytes and more, even when each field fits 32 bits;
  `WalCodec.MarshalRoundTrip` gives the exact bound and `WalCodec.OversizedFrameIsLost` such a record.
- A Get does not always answer what was last written. A bulk set does not touch the cache
  (`CacheCoherence.BulkSetLeavesStale`), the cache key leaves out the table (`CacheCoherence.OtherTableAnswers`), and a
  write whose flush fails is logged and buffered but not cached (`CacheCoherence.FailedSetLeavesStale`).
  `DbAdapter.Adapter.Get` and `CacheCoherence.GetAnswers` say exactly what is answered and when it agrees with the
  history; `CacheCoherence.AgreesAllAlong` names exactly the calls that spoil it.
- A set that changes the secondary key of a present key leaves it listed under the old one
  (`FileStore.SetKeepsExact` gives the exact condition), and once that key is deleted reading by the old secondary
  key fails (`FileStore.MovedKeyBreaksGetBySk`).

## Model

| member | source | states |
|---|---|---|
| RaftNode.Node.HandleRequestVote | internal/raft/node.go:116-142 | a vote is granted if and only if the term is not below the node's, the node has not voted for another candidate in it, and the candidate's log ends in a later term, or in the same one and is at least as long; the new state with it |
| RaftNode.Node.HandleAppendEntries | internal/raft/node.go:144-209 | a request succeeds if and only if its term is not below the node's and the previous entry matches; the commit index then becomes the leader's, cut to the end of the log, and never goes back |
| RaftNode.Node.AppendAt | internal/raft/node.go:182-195 | the overwrite loop replaces the log from the first entry whose term differs or is missing, and leaves it alone if there is none |
| RaftNode.Node.ProposeCommand | internal/raft/node.go:220-243 | only a leader appends, in its own term, and only with a replication bar of 0 or between majority and cluster size; otherwise nothing changes and the error names the leader or the range |
| RaftNode.Node.ElectionTimeout | internal/raft/node.go:358-362 | a timed-out follower becomes a candidate and changes nothing else |
| RaftNode.Node.StartCampaign | internal/raft/node.go:369-398 | a campaign raises the term, votes for itself, forgets the leader and asks with its own last index and term |
| RaftNode.Node.HandleVoteReply | internal/raft/node.go:407-411 | a reply of a higher term makes the node step down, any other leaves it |
| RaftNode.Node.PromoteIfStillCandidate | internal/raft/node.go:436-443 | the node becomes leader only if it is still a candidate of that term |
| RaftNode.Node.BeginLeading | internal/raft/node.go:450-462 | replication state is reset for every peer and the node names itself leader |
| RaftNode.Node.PrepareAppend | internal/raft/node.go:493-516 | a leader of the term ships its whole log from nextIndex on with its commit index; anyone else ships nothing |
| RaftNode.Node.HandleAppendReply | internal/raft/node.go:523-548 | stepping down on a higher term, recording a success from the log at reply time, backing nextIndex up by one after a refusal unless it is 0, and nothing in any other case |
| RaftNode.Node.MaybeAdvanceCommit | internal/raft/node.go:564-583 | the commit index reached by committing consecutive entries, and whether it advanced |
| RaftNode.Node.ReplicatedAckCount | internal/raft/node.go:597-605 | the leader plus every peer whose matchIndex reaches the index |
| RaftNode.Node.DeliverNext | internal/raft/node.go:309-323 | one turn of delivery hands over the entry after lastApplied, or nothing when all committed entries are delivered |
| RaftNode.Node.LastLogInfo | internal/raft/node.go:627-635 | the last index and term, -1 and 0 for an empty log |
| RaftNode.Node.StepDownTo | internal/raft/node.go:637-645 | a new term starts as a follower with no vote and no known leader |
| RaftTypes.CommitFromStopsAtBar | internal/raft/node.go:559-583 | the commit index passes exactly the consecutive entries of the leader's term that it and enough peers hold: as many in all as the entry asks for, and every member when it asks for none |
| RaftTypes.VoteGrantedExactly | internal/raft/node.go:116-142 | when a vote is granted, with the last entry of either log written out |
| RaftTypes.UpToDateTotal | internal/raft/node.go:130-132 | of any two logs one is at least as up-to-date as the other, and both ways only if they end in the same term and are equally long |
| RaftTypes.MajorityIsLeast | internal/raft/node.go:585-588 | a majority is the least number of members of which any two groups must share one |
| RaftTypes.MergedExactly | internal/raft/node.go:182-195 | at the first entry the log lacks or has with another term the rest is replaced, and without one nothing is |
| RaftCompleteness.LeaderCompleteness | internal/raft/node.go:130-141 | what a majority held in a term is in the log every later leader started with |
| RaftCompleteness.CommittedAgree | internal/raft/node.go:559-583 | any two committed sequences are prefixes of one another |
| RaftQuiet.CountedAreHolders | internal/raft/node.go:596-605 | everyone the leader counts for an index has held its log through that index in its term |
| RaftQuiet.CommitFromChosen | internal/raft/node.go:607-625 | because every accepted bar is a majority or more, the commit rule commits only what a majority held, the last of it in the leader's own term |
| RaftQuiet.ShippedRequestOk | internal/raft/node.go:499-516 | what a leader ships is its whole log after prevLogIndex, so its commit index lies inside it |
| RaftLeaders.OneCandidateByQuorum | internal/raft/node.go:369-447 | two majorities of votes in one term elect the same candidate |
| RaftAppends.LogMatching | internal/raft/node.go:173-195 | in one state, logs with the same term at an index are equal up to it |
| RaftAppends.MergedIsPrefixOrWhole | internal/raft/node.go:182-195 | taking a request gives the log it was cut from, or leaves a log that already extends it |
| RaftSafety.RunInv | internal/raft/node.go:116-583 | the invariant holds in every state of every run |
| RaftSafety.ElectionSafety | internal/raft/node.go:369-447 | section 5.2 of the Raft paper: over a whole run, a term has at most one leader |
| RaftSafety.LogMatchingOverRun | internal/raft/node.go:173-195 | section 5.3: logs held anywhere at any two moments that agree in term at an index are equal up to and including it |
| RaftSafety.LeaderCompletenessOverRun | internal/raft/node.go:564-625 | section 5.4: what any node counts as committed in its term is in the log of every leader of a later term, whichever moment comes first |
| RaftSafety.StateMachineSafety | internal/raft/node.go:301-326 | section 5.4.3: what two nodes have delivered, at any two moments, are prefixes of one another |
| RaftSafety.DeliveredInOrder | internal/raft/node.go:309-323 | a node has delivered exactly its log up to lastApplied, in order, without gap or repeat, and lastApplied <= commitIndex < len(log) |
| RaftSafety.NothingOutOfRange | internal/raft/node.go:499-505 | every indexing and slicing in the code is in range in every reachable state |
| RaftEffects.NothingTakenBack | internal/raft/node.go:116-209 | over any run a node never takes back a term, a vote within a term, a committed entry or a delivery |
| RaftEffects.FollowerCommitInsideMatch | internal/raft/node.go:197-205 | although the clamp uses the log length, after an accepted request a follower's commit index never passes the part of its log that equals the sender's |
| RaftEffects.EveryRequestCommitsInside | internal/raft/node.go:499-516 | every append request ever sent carries a commit index inside what it ships |
| RaftEffects.StaleRequestDropsNothing | internal/raft/node.go:182-195 | a delayed or repeated request drops nothing that agrees with the sender, and changes no log that already has all it describes |
| RaftEffects.CommitMeetsBar | internal/raft/node.go:559-583 | a newly committed entry is of the leader's term and at least minAcks members, all of them when minAcks is 0, have held the log through it; those still in the term hold it now |
| RaftHypothesis.LateReplyBreaksSafety | internal/raft/node.go:536-543 | with one reply processed after the log has grown, two nodes deliver different commands at the same index |
| WalCodec.ValueOfBig | internal/wal/entry.go:49-51 | a big-endian field holds the value modulo its width |
| WalCodec.BigOfValue | internal/wal/entry.go:53-58 | reading a big-endian field and writing it back gives the same bytes |
| WalCodec.StringRead | internal/wal/entry.go:67-77 | a string that reads is the length-prefixed rendering of itself and stays inside the buffer |
| WalCodec.AppendString | internal/wal/entry.go:60-65 | appending a string appends its length-prefixed rendering |
| WalCodec.DecodesExactlyFrames | internal/wal/entry.go:117-205 | decoding returns a record if and only if the record is well-formed and the data starts with its frame |
| WalCodec.MarshalRoundTrip | internal/wal/entry.go:82-114 | decoding an encoded record, whatever follows it, returns it (a delete without its value) exactly when the payload is below 2^32 - 8 bytes |
| WalCodec.OversizedFrameIsLost | internal/wal/entry.go:82-114 | a record whose every field fits 32 bits, which is encoded and not decoded again |
| WalCodec.UnmarshalRoundTrip | internal/wal/entry.go:116-205 | an accepted frame of exact length with a table name encodes back to the same bytes |
| WalCodec.MarshalsExactly | internal/wal/entry.go:82-114 | which entries are encoded, by operation number, and the error of every other |
| WalCodec.WellFormedExactly | internal/wal/entry.go:116-205 | which records decoding can return, by operation number and size |
| WalCodec.UnmarshalRefuses | internal/wal/entry.go:117-153 | what decoding reports of bytes that are too short, too long for the 32-bit offsets, damaged or of another version, in the order of the checks |
| WalCodec.PayloadOfOneSet | internal/wal/entry.go:86-98 | the bytes of one payload, field by field |
| WalCodec.FrameOfOneSet | internal/wal/entry.go:109-113 | a frame is the length of the payload, the payload and its checksum |
| WalCodec.Entry.MarshalBinary | internal/wal/entry.go:82-114 | the frame or the error of an entry: empty table, transaction id not of eight bytes, unknown operation |
| WalCodec.Entry.UnmarshalBinary | internal/wal/entry.go:117-205 | the fields or the error of a frame, in the order the checks are made, including the 32-bit slice panic |
| WalLog.FramesRead | internal/wal/wal.go:431-480 | frames followed by anything read back as their records followed by what the rest reads as |
| WalLog.FileIsFrames | internal/wal/wal.go:431-480 | any file is the frames of the records replay reads, followed by something it does not accept |
| WalLog.TornTail | internal/wal/wal.go:421-486 | for any cut of a well-formed log, replay reads exactly the records whose frames survived whole, the file is left at that boundary, and what is appended there reads back too |
| WalLog.OversizedIsTail | internal/wal/wal.go:447-452 | a frame above the payload limit, and everything after it, is taken for a torn tail |
| WalLog.LimitIsExact | internal/wal/wal.go:447-452 | replay reads on after a payload of 2^28 bytes and stops at a larger one |
| WalLog.RepairThenReplay | internal/wal/wal.go:498-542 | on every byte string, repair keeps at least what replay keeps, and replaying the repaired file gives the same records and the same final file |
| WalLog.RepairAgreesOnCuts | internal/wal/wal.go:498-542 | on any cut of a well-formed log repair and replay stop at the same offset |
| WalLog.RepairTruncatesTail | internal/wal/wal.go:499-542 | the repair loop cuts the file after its last frame with a good checksum and room for a header |
| WalLog.RepairKeepsChecked | internal/wal/wal.go:499-542 | repair keeps a frame exactly when its length, its checksum and the room for a header are right, whether or not it decodes |
| WalFile.BulkSetAppends | internal/wal/wal.go:77-108 | a bulk set appends the frames of its entities in order with consecutive sequence numbers up to the first that fails, and the counter stands for exactly the entries written |
| WalFile.BulkDeleteAppends | internal/wal/wal.go:110-133 | the same for deletes |
| WalFile.Wal.AppendLocked | internal/wal/wal.go:364-394 | one frame is written at the offset and counted, or nothing changes |
| WalFile.Wal.Set | internal/wal/wal.go:53-75 | a set is a bulk set of one, including the automatic checkpoint |
| WalFile.Wal.BulkSet | internal/wal/wal.go:80-108 | the log after a bulk set, and its error |
| WalFile.Wal.Delete | internal/wal/wal.go:135-150 | a delete is a bulk delete of one |
| WalFile.Wal.BulkDelete | internal/wal/wal.go:113-133 | the log after a bulk delete, and its error |
| WalFile.Wal.MaybeAutoCheckpoint | internal/wal/wal.go:306-321 | with checkpoints configured one is taken exactly when one of the two thresholds is set and reached, and nothing changes otherwise or when the hook fails |
| WalFile.Wal.CheckpointLocked | internal/wal/wal.go:278-304 | LastSeq becomes the sequence counter only after the hook succeeded, then the file is cut if the policy says so |
| WalFile.Wal.Truncate | internal/wal/wal.go:488-496 | the file is cut and the offset is at its end |
| WalFile.Wal.ReplaySince | internal/wal/wal.go:421-486 | the records above the skip value are handed over in order, each accepted or not in the light of all before it; the highest sequence of what was read is returned; the unreadable tail is cut off, and a refusal stops the replay and leaves the file alone |
| WalFile.Wal.ReadFrame | internal/wal/wal.go:431-461 | the next frame, the end of the file, or a torn or oversized frame |
| Batching.UpsertIsApply | internal/fsdb/write_batcher.go:212-222 | buffering a change is applying it to the view of store plus buffer |
| Batching.FlushOneKeepsView | internal/fsdb/write_batcher.go:162-168 | moving one change from the buffer to the store leaves the view alone |
| Batching.BytesOrder | internal/fsdb/write_batcher.go:156-161 | the flush order on strings is a strict total order |
| Batching.BytesLessExactly | internal/fsdb/write_batcher.go:156-161 | it is the order of a dictionary |
| Batching.KeyLessExactly | internal/fsdb/write_batcher.go:156-161 | keys go table by table, and by key within a table |
| Batching.SortedKeys | internal/fsdb/write_batcher.go:152-161 | the pending keys in strictly increasing order, each once |
| Batching.TotalSplits | internal/fsdb/write_batcher.go:192-210 | the weight of the buffer is the weight of any one entry plus that of the rest |
| Batching.TotalOfOne | internal/fsdb/write_batcher.go:192-210 | what one change weighs: its key and table, and its entity or 16 |
| Batching.WriteBatcher.Upsert | internal/fsdb/write_batcher.go:212-222 | the last write wins, the view takes it, and an exact byte estimate stays exact |
| Batching.WriteBatcher.FlushAll | internal/fsdb/write_batcher.go:148-171 | a flush touches the store at most once per key, in key order, keeps the view whether or not a call fails, succeeds if and only if none does, and then leaves nothing pending and the store equal to the view |
| Batching.WriteBatcher.ApplyOne | internal/fsdb/write_batcher.go:173-190 | a change takes effect in the store or fails without effect; deleting a missing key is a success |
| Batching.WriteBatcher.Set | internal/fsdb/write_batcher.go:238-254 | the view takes the write at once; it fails if and only if a call of the store fails; a deferred write that stays under both limits does not call the store, and any other flushes |
| Batching.WriteBatcher.Del | internal/fsdb/write_batcher.go:297-313 | the same for a delete |
| Batching.WriteBatcher.BulkSet | internal/fsdb/write_batcher.go:256-274 | the view is as after setting the entities one by one |
| Batching.WriteBatcher.BulkDel | internal/fsdb/write_batcher.go:276-295 | the view is as after deleting the keys one by one |
| Batching.WriteBatcher.Get | internal/fsdb/write_batcher.go:315-333 | in deferred mode a read answers from the view, in immediate mode from the store |
| Batching.Perform | internal/fsdb/write_batcher.go:238-333 | each call acts on the view as on a map updated at once |
| Batching.PerformAll | internal/fsdb/write_batcher.go:238-333 | over any sequence of calls in deferred mode, with any limits and failures, every Get answers as a map updated at once; a failure is reported exactly when a call of the store fails, and as long as every call stays under both limits the store is not called |
| RecoveryProof.OpAppends | internal/wal/wal.go:53-150 | an accepted operation is appended as the frames of its records, numbered on from the history |
| RecoveryProof.LogOpKeeps | internal/db/adapter.go:82-103 | logging an operation before the store call keeps the recovery invariant |
| RecoveryProof.TearOpKeeps | internal/wal/wal.go:364-394 | so does a crash in the middle of an append |
| RecoveryProof.EveryCutIsATear | internal/wal/wal.go:364-394 | such a crash may leave the file at any byte of what the operation would append |
| RecoveryProof.FlushKeyKeeps | internal/fsdb/write_batcher.go:162-168 | so does a flush cut off at any key, even during Load |
| RecoveryProof.SaveSeqKeeps | internal/wal/wal.go:278-304 | so does saving LastSeq with nothing pending, with or without the truncation after it |
| RecoveryProof.FileReads | internal/wal/wal.go:213-235 | replay above LastSeq yields exactly the history after it, and the counter resumes at the length of the history, with or without truncation and torn tail |
| RecoveryProof.RecoveryEqualsReplay | internal/wal/wal.go:152-247 | in every run with crashes at any moment, whenever the node is up and idle its view is the fold of every complete logged operation from the beginning, and with nothing pending so is the store |
| RecoveryProof.HistoryOnlyGrows | internal/wal/wal.go:263-304 | nothing completely logged is forgotten, and the sequence counter of a running node is the number of records logged |
| RecoveryProof.EarlyCheckpointLosesWrite | internal/wal/wal.go:53-75 | a checkpoint between append and store call, a crash and a Load lose the write |
| RecoveryProof.OversizedWriteCutsLog | internal/wal/wal.go:447-452 | a write above the payload limit is logged without an error, and on replay it and everything logged after it are lost |
| RecoveryProof.HalfLoggedBatch | internal/wal/wal.go:80-108 | a batch that fails at its entity k leaves k records: a crash before the next checkpoint brings them back, a checkpoint in between skips them for good |
| RecoveryProof.EmptyKeyMisread | internal/wal/wal.go:171-181 | an entity with an empty key comes back as itself if and only if decoding its encoding as any value gives its body |
| WalLoad.Replay | internal/wal/wal.go:229-235 | the target takes the records above LastSeq one after the other; this fails if and only if one of them is neither a delete, nor a transaction mark, nor a set that decodes, or a call of the store fails, and then those before have been taken and the file and LastSeq are as they were |
| WalLoad.ReplayableExactly | internal/wal/wal.go:171-211 | which records can be replayed, by operation number and what their value decodes to |
| WalLoad.Load | internal/wal/wal.go:162-247 | after the replay the counter resumes, and with checkpoints configured the buffer is flushed and LastSeq moves up; nothing fails but a record that cannot be replayed or a call of the store, and LastSeq is then where it was |
| WalLoad.LoadRecovers | internal/wal/wal.go:152-247 | replaying onto what any crash of any run left gives the fold of the whole history, even when the store was already ahead of LastSeq |
| DbAdapter.OpRun | internal/db/adapter.go:64-103 | logging an operation, the store call and whatever it flushes are steps of the recovery machine |
| DbAdapter.FlushKeys | internal/fsdb/write_batcher.go:148-171 | a flush, complete or cut off, is one step per key it got to |
| DbAdapter.CheckpointRun | internal/wal/wal.go:278-304 | a checkpoint is saving LastSeq and then cutting the log |
| DbAdapter.TurnsRun | internal/wal/wal.go:183-211 | a replay, complete or not, is a stretch of the machine |
| DbAdapter.LoadRun | internal/wal/wal.go:213-245 | Load, whether it comes through or fails at any record or in its flush, is a stretch of the machine |
| DbAdapter.LogReply | internal/wal/wal.go:53-150 | an accepted operation is logged without an error and a refused one changes nothing |
| DbAdapter.Adapter.Load | internal/db/adapter.go:254-263 | whatever the crash left, the node comes up if and only if no call of the store fails, with the fold of everything ever logged, with or without checkpoints; otherwise it still stands on a run |
| DbAdapter.Adapter.ViewIsHistory | internal/fsdb/write_batcher.go:315-333 | what the store answers for a row is what the whole logged history says, in immediate mode as long as no flush has failed |
| DbAdapter.Adapter.ValidateConsistency | internal/db/adapter.go:280-296 | a write that names a version is let through if and only if the stored row has it, a missing row having the empty one |
| DbAdapter.Adapter.LogAndSet | internal/db/adapter.go:91-99 | the operation is logged and then stored, and not stored if the log refuses it; it fails to be stored if and only if a call of the store fails, and a deferred one under the limits calls none; the node stays on a run of the machine in any case |
| DbAdapter.Adapter.LogAndBulkSet | internal/db/adapter.go:70-76 | the same for a batch |
| DbAdapter.Adapter.LogAndDelete | internal/db/adapter.go:221-228 | the same for a delete |
| DbAdapter.Adapter.LogAndBulkDel | internal/db/adapter.go:198-204 | the same for a batch of deletes |
| DbAdapter.Adapter.ApplyReplicated | internal/db/adapter.go:133-151 | the reply tells a write that is not logged, logged and not stored, or done; the cache takes it in the last case only |
| DbAdapter.Adapter.Set | internal/db/adapter.go:82-103 | the same after the version check, which comes before anything is logged |
| DbAdapter.Adapter.BulkSet | internal/db/adapter.go:64-80 | a batch is logged, then stored, and the cache is not told |
| DbAdapter.Adapter.ApplyReplicatedDelete | internal/db/adapter.go:217-230 | a delete is logged, then stored, and the entry evicted if the store took it |
| DbAdapter.Adapter.Delete | internal/db/adapter.go:232-252 | the same after the version check |
| DbAdapter.Adapter.BulkDel | internal/db/adapter.go:195-213 | a batch of deletes is logged, then stored, and only then are its keys evicted |
| DbAdapter.Adapter.Get | internal/db/adapter.go:105-114 | the answer is what was last seen of the key, in whatever table, while its cache entry lives and what the logged history says otherwise; the two agree exactly when the entry is gone or was last seen as the history has it, and always after careful calls |
| DbAdapter.Adapter.Close | internal/db/adapter.go:265-278 | after a last flush, however far it gets, the next start finds a crashed node of the run |
| DbAdapter.Adapter.Checkpoint | internal/wal/wal.go:272-304 | a checkpoint between operations succeeds if and only if checkpoints are configured and no call of the store fails, and then LastSeq is the number of records logged and nothing is pending |
| CacheCoherence.OpKeeps | internal/cache/mem_base.go:80-150 | what a cache holds under a key, if anything, is what was last stored or answered under it; with neither limit nor time to live it does hold that |
| CacheCoherence.HeldIsLastSeen | internal/db/adapter.go:64-114 | over any calls, what the cache holds for a key is what the last successful Set or the last Get of it, in whatever table, said, unless a successful delete followed |
| CacheCoherence.GetAnswers | internal/db/adapter.go:105-114 | a Get answers what was last seen while the cache has an entry stamped less than a time to live ago, and what the store says otherwise, so it agrees with the store if and only if there is no such entry or it was last seen as the store has it |
| CacheCoherence.UnlimitedGet | internal/cache/mem_base.go:95-122 | without a limit the calls alone say what a Get answers: what was last seen for a time to live, and what the store says from then on |
| CacheCoherence.ExpiredGet | internal/cache/mem_base.go:152-157 | once a time to live has passed since the key was last seen, a Get answers what the store says |
| CacheCoherence.AgreesNext | internal/db/adapter.go:64-114 | one call keeps the cache in agreement with a row if and only if it is none of the calls listed in `Spoils` |
| CacheCoherence.AgreesAllAlong | internal/db/adapter.go:64-114 | over any run the cache agrees with a row all along if and only if no call spoils it |
| CacheCoherence.CarefulGets | internal/db/adapter.go:64-114 | if a key is used under one table, never written in bulk and no write of it fails, every Get answers its row, under any limit and time to live |
| CacheCoherence.BulkSetLeavesStale | internal/db/adapter.go:64-80 | after a set and a bulk set of one row, a Get in time answers what the set wrote |
| CacheCoherence.OtherTableAnswers | internal/db/adapter.go:298-302 | after sets of one key in two tables, a Get in time of the first table answers what the second set wrote |
| CacheCoherence.FailedSetLeavesStale | internal/db/adapter.go:95-103 | after a set and one whose flush fails, a Get in time answers what the first wrote although the second is logged and buffered |
| FileStore.SetKeepsIndex | internal/fsdb/base.go:262-272 | a set keeps every entity listed once under its secondary key and no index empty |
| FileStore.DelKeepsIndex | internal/fsdb/base.go:420-444 | so does a delete, which reports a missing key and never a missing index |
| FileStore.SetExactly | internal/fsdb/base.go:262-334 | a set writes one key file and appends the key to one list if it is not there, and changes nothing else |
| FileStore.DropSplits | internal/fsdb/base.go:446-480 | dropping keys from a list keeps the others in their order |
| FileStore.SetKeepsExact | internal/fsdb/base.go:296-334 | a set keeps the indexes exact if and only if it does not move a present key away from a secondary key |
| FileStore.DelKeepsExact | internal/fsdb/base.go:446-480 | a delete keeps exact indexes exact |
| FileStore.GetBySkIsExact | internal/fsdb/base.go:398-418 | with exact indexes a read by secondary key returns exactly the present entities with it, and a missing index exactly when there are none; by the empty secondary key it fails, because the path names a directory |
| FileStore.MovedKeyBreaksGetBySk | internal/fsdb/base.go:398-418 | a key that changed its secondary key and was deleted makes reads by the old one fail |
| FileStoreBulk.BulkSetRefines | internal/fsdb/base.go:62-139 | a bulk set leaves the key files of setting its items in turn, and the same index lists when repeats agree on the secondary key |
| FileStoreBulk.BulkSetKeepsIndex | internal/fsdb/base.go:62-139 | whatever the repeats, a bulk set is setting the deduplicated items in turn and keeps the index in step |
| FileStoreBulk.BulkDelRefines | internal/fsdb/base.go:141-229 | with the index in step a bulk delete leaves the key files and the index of deleting in turn, ignoring missing keys |
| FileStoreBulk.DedupeLast | internal/fsdb/base.go:245-259 | deduplication keeps the last entity of every key |
| FileStoreBulk.DedupeAddsSame | internal/fsdb/base.go:119-139 | grouping the deduplicated batch adds the same keys in the same order |
| FileStoreDb.DedupeByKey | internal/fsdb/base.go:245-259 | the deduplication loop, in first-seen order and with distinct keys |
| FileStoreDb.DedupeKeys | internal/fsdb/base.go:231-243 | the keys in first-seen order, each once |
| FileStoreDb.GroupBySk | internal/fsdb/base.go:119-130 | the grouping loop: secondary keys in first-seen order, each with its keys in batch order |
| FileStoreDb.Db.Set | internal/fsdb/base.go:262-272 | the key file is written and the index extended |
| FileStoreDb.Db.AppendKeysToSk | internal/fsdb/base.go:296-334 | the missing keys are appended to one index file, each once |
| FileStoreDb.Db.RemoveKeysFromSk | internal/fsdb/base.go:446-480 | the keys leave one index file, which is removed when emptied |
| FileStoreDb.Db.Del | internal/fsdb/base.go:420-444 | the key file and its index entry are removed; a missing index is never reported |
| FileStoreDb.Db.GetBySk | internal/fsdb/base.go:398-418 | the entities of an index in order, or the first missing key, or a missing index |
| FileStoreDb.Db.WriteKeyFiles | internal/fsdb/base.go:81-114 | writing the files in any order leaves the same key files |
| FileStoreDb.Db.BulkUpdateSk | internal/fsdb/base.go:116-139 | every index file that gains keys is rewritten once |
| FileStoreDb.Db.BulkSet | internal/fsdb/base.go:66-79 | the files after a bulk set |
| FileStoreDb.Db.FindVictims | internal/fsdb/base.go:149-160 | the present keys among those asked for, with the secondary keys their files name |
| FileStoreDb.Db.RemoveKeyFiles | internal/fsdb/base.go:169-204 | removing the files in any order leaves the same key files |
| FileStoreDb.Db.BulkRemoveSk | internal/fsdb/base.go:206-229 | every index file that loses keys is rewritten or removed once |
| FileStoreDb.Db.BulkDel | internal/fsdb/base.go:145-167 | the files after a bulk delete |
| FileStoreRuns.IndexInStep | internal/fsdb/base.go:299-334 | after any run every entity is listed exactly once under its secondary key, no index is empty and deleting a present key never misses its index |
| FileStoreRuns.IndexExact | internal/fsdb/base.go:398-480 | as long as no write moves a present key, each index lists exactly the present keys with that secondary key |
| FileStoreTables.SetImplements | internal/fsdb/base.go:51-64 | on all tables a set either is refused because the table is missing or does to the rows what the batcher takes it to do, and the indexes stay in step |
| FileStoreTables.DelImplements | internal/fsdb/base.go:420-444 | a delete always takes the row away and reports at most that it was not there, never a missing index |
| FileStoreTables.FlushImplements | internal/fsdb/write_batcher.go:148-190 | a flush, in whatever order and cut off at whatever key, leaves the rows the batcher takes it to leave and every index in step, and is refused exactly when a set is for a missing table |
| LruCache.SweepIsPurge | internal/cache/mem_base.go:166-181 | on a list in expiry order the tail sweep leaves exactly what the full purge leaves |
| LruCache.OperationSound | internal/cache/mem_base.go:40-150 | every operation keeps the list in expiry order, within its limit and with one entry per key, whatever the callback does |
| LruCache.RunSound | internal/cache/mem_base.go:40-218 | so does any run of operations as long as the clock does not go back |
| LruCache.SweepIsPurgeOverRuns | internal/cache/mem_base.go:166-181 | after any run and at any instant the tail sweep would leave what the full purge would leave |
| LruCache.TailSweepIsFullPurge | internal/cache/mem_base.go:40-58 | between operations, at any instant, the tail sweep would leave what the full purge would leave |
| LruCache.SweepExactly | internal/cache/mem_base.go:166-181 | the sweep takes entries whose time is up off the back until the last one has time left |
| LruCache.PurgeExactly | internal/cache/mem_base.go:40-58 | the purge leaves exactly the entries that have time left |
| LruCache.OnceAnswers | internal/cache/mem_base.go:95-122 | the entry under the key is answered while it has time left, and what the callback gives otherwise |
| LruCache.StoreKeepsOthers | internal/cache/mem_base.go:189-218 | what is stored goes to the front with a full time to live, and no other entry with time left is lost as long as there is room for it |
| LruCache.LruInclusion | internal/cache/mem_base.go:189-218 | with the time to live off and callbacks that succeed, the keys of the smaller cache are at every point of the same run a prefix of those of the larger or unlimited one |
| LruCache.WithinLimit | internal/cache/mem_base.go:201-203 | over any run, with or without a time to live and whatever the callbacks do, the limit is never exceeded |
| LruCache.KeysOnOp | internal/cache/mem_base.go:95-150 | with the time to live off and a callback that succeeds, what each operation does to the order of the keys |
| LruCache.Cache.MaybeSweepExpiredTail | internal/cache/mem_base.go:166-181 | the sweep loop, reading the clock at every step, leaves what a sweep at its last reading leaves |
| LruCache.Cache.Once | internal/cache/mem_base.go:95-122 | an entry under the key with time left is answered, stamped anew and moved to the front; otherwise the callback's value is answered and stored, or nothing |
| LruCache.Cache.SaveIfOk | internal/cache/mem_base.go:80-93 | the value is stored exactly when the callback succeeds |
| LruCache.Cache.DelIfOk | internal/cache/mem_base.go:135-150 | the entry is dropped exactly when the callback succeeds |
| LruCache.Cache.Del | internal/cache/mem_base.go:124-133 | the entry is dropped, a missing key changes nothing |
| LruCache.Cache.Store | internal/cache/mem_base.go:189-208 | a known key is updated in front; a new one goes in front after the sweep and the evictions |
| LruCache.Cache.PurgeExpired | internal/cache/mem_base.go:40-58 | the walk drops each entry that is expired when it is looked at: one that outlives the walk stays, one whose time was up before it goes, and if no time passes on the way it leaves what the tail sweep would leave |
| RaftLogFile.RecordsReadBack | internal/wal/raft_wal.go:111-169 | the records of a run read back as its entries at their indices and its last meta |
| RaftLogFile.CutLosesOnlyATail | internal/wal/raft_wal.go:111-169 | after any interleaving and any cut, Load finds no gap, a prefix of the persisted entries with entry i at index i, and the last surviving meta; without a cut, all of them |
| RaftLogFile.CutStands | internal/wal/raft_wal.go:111-169 | a cut file stands for the events whose records survived whole |
| RaftApply.StepKeeps | cmd/node/setup/raft.go:94-119 | every step of the loop keeps the invariant of file, counters and key map: a change applied, an entry or a meta recorded or torn, a crash, a restart |
| RaftApply.FileAndRows | cmd/node/setup/raft.go:87-119 | with crashes between any two steps, within an entry and within a record, the file opens without an error and holds exactly the first n committed entries at their indices and the last saved meta, and each row of the key map is as those entries and some part of the next left it |
| RaftApply.RecordedIsApplied | cmd/node/setup/raft.go:94-100 | an entry is recorded only once the key map is exactly what the entries up to it leave, however often the node crashed while applying them |
| RaftApply.ApplyLoop.Start | cmd/node/setup/raft.go:29-70 | a start on what a crash left does not fail and begins with the entries and the stable state in the file |
| RaftApply.ApplyLoop.Turn | cmd/node/setup/raft.go:101-119 | the entry is applied and then recorded, if and only if the callback does not fail and the entry encodes, and the key map is then what all recorded entries leave; otherwise the process ends on its run |
| RaftApply.ApplyLoop.SaveMeta | cmd/node/setup/raft.go:60-66 | saving the stable state is a step of the machine |
| RaftApply.AppliedAgain | cmd/node/setup/raft.go:94-100 | applying a command again, whatever part of it had been applied, is applying it once |
| RaftLogFile.RaftWal.AppendEntry | internal/wal/raft_wal.go:69-88 | one framed entry with the next sequence number, or nothing |
| RaftLogFile.RaftWal.SaveMeta | internal/wal/raft_wal.go:90-109 | one framed meta with the next sequence number, or nothing |
| RaftLogFile.RaftWal.Load | internal/wal/raft_wal.go:117-169 | the entries in index order and the last meta exactly when the indices run from 0 without a gap |
| RaftLogFile.Assemble | internal/wal/raft_wal.go:144-168 | sorting, gap check and listing: an error exactly when the indices are not 0 to n-1, naming the first index or the place of a gap |
| RaftLogFile.AppliedLog.Open | cmd/node/setup/raft.go:29-70 | opening whatever is left of the file resumes behind its last whole event, with exactly the entries and the meta recorded before |
| RaftLogFile.AppliedLog.PersistApplied | cmd/node/setup/raft.go:72-81 | each applied entry that encodes is persisted at the next index |
| RaftLogFile.AppliedLog.SaveMeta | cmd/node/setup/raft.go:60-66 | a saved meta is one more event in the file |

## Left out

- Raft liveness: commit stops at an entry of an older term and a node without peers never commits, so no progress is claimed.
- Raft across restarts, and interleavings inside `notifyMetaChange`: the code does not provide safety there.
- Terms, indices and counters are unbounded integers; the log's sequence number wraps at 2^64, the truncation of terms and indices to 32 bits in the transport is not modelled.
- `commitNotify`, the election timer and the `resetElection` channel: when a step is taken is left open instead.
- RaftEffects.CommitMeetsBar: members that have moved on to a later term are counted by what they held in the leader's term, not by what they hold now.
- Durability `Buffered`, partial writes caused by I/O errors, `OpBegin`/`OpCommit` beyond being ignored by Load, and checkpoint blobs with table data.
- WalLoad.Load: CreateTable and checkpoint blobs are not modelled.
- DbAdapter.Adapter.Load: when it fails, what is promised is that the node stands on a run, not that it answers anything.
- DbAdapter.Adapter.Set: the error texts; the conditions on what is logged are those listed under Hypotheses. A store that cannot read the row it compares the version with is not modelled.
- DbAdapter.Adapter.Get: the store is read before the cache is asked, which no one can observe, where the code reads it on a miss only.
- Recovery of the secondary index after a crash in the middle of a delete: only the key-to-entity map is recovered in the model.
- WalFile.Wal.CheckpointLocked: whether the flush hook succeeds is a parameter; that it flushes the buffer is a condition of the checkpoint step in `Recovery`.
- The sizes the batcher adds up are any function of the entity in place of the length of its JSON; GetBySk is Flush followed by the store's read and has no member of its own.
- FileStoreDb.Db.BulkSet: I/O errors; the worker pool is writes in any order. The batcher makes single calls only, so the bulk operations are proved for one table.
- LruCache.Cache: list elements are values held by both the list and the map instead of shared pointers, and the mutex is the atomicity of each method.
- Cache entries dropped by the clean-up loop, which the node does not start; HTTP, gRPC, configuration, the event queue and the SDK.
- CacheCoherence.GetAnswers: which entries a limit evicts is left to the recency list; only without a limit is the condition one on the calls alone (`CacheCoherence.UnlimitedGet`).
- RaftApply.FileAndRows: that the key map survives a crash is a hypothesis there; it is what `RecoveryProof.RecoveryEqualsReplay` proves of the store.
- RaftLogFile.RaftWal.Load: an undecodable entry is reported without its sequence number.
