# A verified model of tautq

tautq is a replicated job queue without a coordinator. Every job has an owner and is pinned to at
most three members. The owner writes each lease, completion, expiry and parking to its own log and
then to at least one other pinned member; a successor takes over one epoch up with a majority of
claims. Underneath are a hand-written write-ahead log with rotation and compaction, and an RPC layer
with a boot-id handshake.

This project models these layers in Dafny and proves what they promise: safety over every run of the
protocol, crash consistency over every run of the store, exactly-once completion over every nesting
of callbacks. Code that updates state in place is modelled as classes with methods and loops
(`Device`, `Wal`, `JobStore`, `RpcNode`, `QuorumCommit`, `Submits`, `QueueNode`); the distributed
parts are step systems over whole-cluster states. `dafny verify dfyconfig.toml` checks everything.

## Layers

| files | what they model |
|---|---|
| `Bytes`, `Records`, `Hex`, `Frames` | little-endian fields, the record codec, hex ids, log frames |
| `Jobs`, `Store`, `Snapshots` | the merge order, the job table as a fold of records, compaction snapshots |
| `Disk`, `Devices`, `Recovery`, `LogOps`, `CrashSafety`, `LogSteps`, `OpenSteps`, `CompactSteps`, `WriteAheadLog`, `Reopen` | the directory on disk with synced and unsynced parts, power loss, and the log over it |
| `Persistence`, `Leftovers`, `JobStores`, `Histories`, `CrashRuns` | the store over the log, and whole runs of it with crashes anywhere |
| `Handlers`, `Takeover`, `Quorum`, `QuorumCalls`, `Repair`, `QueueNode` | one node's handlers, claim rounds, reply counters, repair entries, and the node class over a durable store |
| `Cluster`, `ClusterInv`, `Fencing`, `Replies`, `Votes`, `LeaseSafety`, `LeaseLimit`, `Counterexamples` | one job on a whole cluster: invariants, fencing, takeover authority, lease safety, and where it fails |
| `Simulation` | the node class as a part of the cluster |
| `Idempotency`, `Ring` | one id per key over the cluster, and the placement it rests on |
| `Calls`, `Rpc`, `Handshake` | calls and callbacks, the RPC node, the handshake over a replaying network |

## How to read the main results

**Lease safety** (`LeaseSafety.LeaseSafetyTheorem`). In every run that keeps the premises below, the
leases that were reported granted have pairwise distinct sequence numbers, ordered like their
epochs; after a completion or parking was reported no later owner leases, expires or parks the job
against it; and every later finalized owner starts from a copy that knows all of this. The premises
are not enforced by the code:

- `Votes.InOrder`: Apply records of one owner reach a peer in send order. The transport is unordered
  and a lease record overwrites `lease_seq` unconditionally. `Counterexamples.ReorderingGrantsTwice`
  is a run that keeps every other premise and grants one sequence number twice. So is, for its own
  premise, each run named below.
- `Votes.ActsFinalized`: a node whose takeover is not finalized does not act as owner. The handlers
  ask only who owns the copy. `Counterexamples.EarlyOwnerGrantsTwice` breaks only this premise.
- `Votes.RoundMatches`: a grant counts only for the round that asked for it. The reply callback
  captures the job and the peer, not the round. `Counterexamples.StaleGrantGrantsTwice` breaks only
  this premise.
- `Votes.MergesRooted`: no merge adopts a copy whose content does not come from its epoch's finalized
  owner. This excludes not only the copy of a claimant but also that of a granter, whose epoch moved
  without its content; `Counterexamples.OutdatedMergeGrantsTwice` breaks only this premise, with a
  granter's copy.
- `Votes.NoIgnoredAck`: a replica at an older epoch does not acknowledge a record it ignores.
  `handle_apply` answers kCreated for a lease on a job it holds as terminal, and its epoch stays
  where it was. `Counterexamples.IgnoredAckGrantsTwice` breaks only this premise.

The 32-bit counters wrap explicitly in the model. The epoch does no harm when it does: a takeover at
the largest epoch opens a round that nobody can grant. The lease number does, and so the theorem is
for `max_attempts` below 2^32 - 1; `LeaseLimit.LimitIsExact` shows that this is exactly when it holds.

`LeaseSafety.LeaseSafetyFromOwners` is the same theorem with the premise on merged copies replaced by
two that a node can see to: a claimant does not send its copy before it is finalized, and a copy is
merged only if its sender owns it by that very copy.

`Simulation` connects the node class with the cluster: for any job, each handler of `QueueNode` moves
copy and open claim exactly as one cluster step does, or does nothing; an owner's decision sends the
same requests. Where the log fails nothing moves, except that an open claim may be dropped.

The cluster-wide invariant (`ClusterInv.InvAlways`) and epoch fencing
(`Fencing.StaleOwnerCannotCommit`) need none of these.

No job a node may grant is forgotten: `Recover` queues every one, and `Listed` (it is in the queue, or
its takeover round is still open) is kept by every handler of `QueueNode` while the log works. For
Apply and Replicate this takes what their senders see to: a record is not sent by its receiver, a
takeover is not sent as a record, and a copy is not sent to its owner.

**Crash consistency** (`CrashRuns.Run`, `Histories.NothingAckedIsLost`, `Histories.ExactlyAcked`). A
script of commits and compactions runs against a device whose every call may fail; a power loss may
strike at any device state any operation goes through, and keeps any byte prefix that includes the
synced part, any unsynced name or not, and CURRENT at either side of an unsynced rename. `Run` returns
an outcome for every action, a reply or that it was struck, and its history is that of a legal run
with these outcomes: a power loss of the script strikes exactly if it is possible where it comes, and
what is there afterwards is what the surviving image replays to. On a device whose calls succeed no commit
is refused. Of every legal run it is proved that all synced
commits answered yes are in the history, in order, and nothing that was not attempted; and if every
commit is synced, that the history is exactly those plus, at each power loss, at most one record
whose commit was refused or cut short since the power loss before. A compaction needs an exact key
index; the scripts are those in which an id always carries one key.

A process that stops and restarts without a power loss is different: `open` syncs neither CURRENT nor
the name of the newest segment. `Reopen.TrustworthyIffClean` shows that appends acknowledged after
such a reopen survive every power loss if and only if both were already durable. The log does go
through images where they are not: between a rotation's create and its directory sync
(`Reopen.RotationUntrusted`), and between a compaction's rename and its sync
(`Reopen.RenameUntrusted`).

**One id per key** (`Idempotency.OneIdPerKey`) for one configured member set, listed in any order on
each node, across gateways, failed commits, drain, compactions and restarts, in runs in which no nonce
comes twice: a node's boot ids differ in their low 32 bits and no boot mints more than 2^32 ids. A
boot id that does come back makes a key forget its job (`Idempotency.ReusedNonceForgets`).

**Exactly once** (`Calls.ExactlyOnce`) for every callback of every call, although callbacks call
again while the layer is in the middle of failing others; `QuorumCalls.Collect` carries this over to
the quorum commit, whose `done` is called exactly once.

Code and comments disagree in three places, and the model follows the code. "Done is absolute" in
`src/store.cc` holds only within an epoch: a full copy of a higher epoch replaces a completed one
(`Store.DoneYieldsToHigherEpoch`). Compaction preserves the table exactly when the key index is exact
(`Store.CompactionPreserves`); an id that changed its key would lose the old entry
(`Store.CompactionLosesStaleKey`). And a missing repair entry does not mean that every peer holds the
latest transition, because an answer is not tied to the transition it confirms: a retried completion
is confirmed although no peer need have it (`QueueNodes.QueueNode.ConfirmedUnheard`,
`Repair.LateAnswersErase`). `Repair.BitsCounted` and `Repair.GoneMeansTaken` follow the entry through
any history and show that the code's test suffices when every answer entered carried the latest
transition; `Repair.TakenIffConfirmed` adds, close to the definition of what an owner can know, that
no weaker evidence would do.

## Model

| member | source | states |
|---|---|---|
| Bytes.AppendLE | src/bytes.h:13-29 | the append loop writes exactly the low-order bytes, least significant first |
| Bytes.ReadLE | src/bytes.h:34-53 | the read loop yields the value of the bytes at the offset |
| Bytes.PutGetLE | src/bytes.h:13-53 | a written field reads back modulo its width, unchanged when it fits |
| Bytes.GetPutLE | src/bytes.h:13-53 | writing what was read restores the bytes |
| Bytes.FieldsRoundTrip | src/records.cc:97-204 | a list of fields that fit is read back unchanged whatever follows |
| Bytes.FieldsCanonical | src/records.cc:115-267 | what is read always fits and re-encodes to the very bytes read |
| Jobs.AdvancesIsKeyOrder | src/records.cc:40-54 | job_advances is the lexicographic order of (epoch, terminal class, lease_seq, leased) |
| Jobs.StrictWeakOrder | src/records.cc:40-54 | it is irreflexive and transitive, and incomparability is transitive on known states |
| Jobs.UnknownStateBreaksWeakOrder | src/records.cc:40-54 | with an unknown state byte it is only a partial order |
| Jobs.MergeAllIsMaximal | src/store.cc:76-83 | merging any list of copies leaves one of them that no other advances |
| Jobs.MergeOrderIrrelevant | src/store.cc:76-83 | the same copies in any order and number leave copies that do not advance one another |
| Store.FenceMonotone | src/store.cc:66-130 | over any records but a repeated Submit, (epoch, Done, DeadLetter) never falls |
| Store.DoneChanges | src/store.cc:66-130 | from Done only a takeover's epoch and owner or an advancing full copy changes anything |
| Store.DoneYieldsToHigherEpoch | src/store.cc:72-83 | a full copy of a higher epoch replaces a Done one |
| Store.TableIsPerJob | src/store.cc:66-130 | each job's copy is the fold of just the records that name it |
| Store.IndexExactKept | src/store.cc:66-82 | while an id always carries one key, the index stays exact: every entry names a job with that key and every job is indexed |
| Store.SnapshotOrder | src/store.cc:33-42 | the sort comparator is a strict order, total on distinct ids |
| Store.CompactionPreserves | src/store.cc:26-49 | replaying the sorted snapshot rebuilds the same table and key winners if and only if the index is exact |
| Store.CompactionLosesStaleKey | src/store.cc:26-49 | a log in which an id changes its key is changed by compaction |
| Records.JobRoundTrip | src/records.cc:97-158 | a job within the limits survives encoding, whatever follows |
| Records.JobCanonical | src/records.cc:115-158 | whatever get_job accepts is within the limits and is the encoding of what it returns |
| Records.RecordRoundTrip | src/records.cc:171-267 | every record within the limits decodes to itself and its lsn, whatever follows |
| Records.RecordReplays | src/records.cc:171-267 | a wrapped lsn does not disturb the record |
| Records.RecordCanonical | src/records.cc:206-267 | whatever the decoder accepts is, up to trailing bytes, the encoding of what it returns |
| Records.StrictPrefixRejected | src/records.cc:171-267 | no strict prefix of an encoding decodes |
| Records.SizeBudget | src/rpc.h:31-34 | every request body of the queue protocol fits 1120 bytes and every record one frame |
| Hex.FromHex | src/records.cc:16-38 | the two parsing loops accept exactly 32 lower-case digits and yield the id they spell |
| Hex.HexBijection | src/records.cc:9-38 | ids and 32-digit lower-case hex strings correspond one to one |
| Frames.ScanFrames | src/wal.cc:94-112 | the scan loop returns the leading whole frames and where they end |
| Frames.ScanExact | src/wal.cc:94-112 | frames are read back in order and reading stops where the next is not whole |
| Frames.TornFrame | src/wal.cc:94-112 | a frame cut short is never taken for a frame |
| Frames.CutExact | src/wal.cc:94-112 | any byte cut of written frames scans to exactly the frames wholly inside it |
| Frames.ScanCanonical | src/wal.cc:94-112 | scanning never invents a record: what it accepts is the frames of what it returns |
| Devices.Device.Write | src/wal.cc:401-412 | a write takes a prefix, or fails and takes nothing |
| Devices.Device.WriteFully | src/wal.cc:74-90 | the loop writes everything, or leaves a strict part; every state on the way is a part |
| Recovery.NamesAscend | src/wal.cc:122-157 | segment names ascend strictly, so sorting restores the order of creation |
| Recovery.ShapeRecovers | src/wal.cc:159-181 | whatever a power loss leaves of a log directory replays a prefix of its log with every durable record |
| CrashSafety.ReplayShape | src/wal.cc:159-181 | a log directory replays exactly its log |
| CrashSafety.SoundRecovers | src/wal.cc:128-197 | a sound image reopens after any power loss, to a cut with all promised records or to the snapshot |
| CrashSafety.SoundSurvives | src/wal.cc:128-197 | what a power loss leaves is sound for exactly what it opens to, all of it durable |
| OpenSteps.ReplayAll | src/wal.cc:159-174 | the segment loop replays all clean segments in order and fails exactly on damage before the newest |
| OpenSteps.SurvivorClean | src/wal.cc:128-197 | a power loss leaves CURRENT and all segment names durable |
| OpenSteps.OpenedNewest | src/wal.cc:160-181 | cutting the torn tail loses no record of the image an earlier log left, and owes all it promised |
| OpenSteps.OpenedFirst | src/wal.cc:183-195 | nor does giving an empty directory its first segment |
| WriteAheadLog.Wal.Load | src/wal.cc:128-174 | fails exactly on an unreadable pointer, a missing directory, early damage or a read that fails; otherwise yields what the directory holds |
| WriteAheadLog.Wal.Open | src/wal.cc:128-197 | opens any image that replays, and yields what it replays; if an earlier log left the image and nothing was in flight, it owes everything promised before and every state on the way is sound |
| WriteAheadLog.Wal.OpenNewest | src/wal.cc:166-181 | the torn tail is cut off before the segment is opened, or nothing changes |
| WriteAheadLog.Wal.OpenFirst | src/wal.cc:183-195 | an empty directory gets its first segment, durably named |
| WriteAheadLog.Wal.Rotate | src/wal.cc:212-230 | the old segment is durable before the new one is used; the new one's name is durable only at the end; a failure stops the log for good |
| WriteAheadLog.Wal.Append | src/wal.cc:384-416 | on success the log is longer by the record, durable if synced, and a new segment was begun exactly if the record did not fit the present one; on failure it refuses further work; every state on the way is sound |
| WriteAheadLog.Wal.Sync | src/wal.cc:418-426 | everything in the log is durable on success |
| WriteAheadLog.Wal.MakeGeneration | src/wal.cc:244-253 | makes the directory of the first generation that has none, skipping those left behind; any other error, or the last name taken, changes nothing |
| WriteAheadLog.Wal.Draft | src/wal.cc:254-286 | the new generation holds exactly the snapshot, rotated and synced, and the running log is untouched throughout |
| WriteAheadLog.Wal.Publish | src/wal.cc:287-288 | both directories are synced before CURRENT moves |
| WriteAheadLog.Wal.Point | src/wal.cc:292-314 | until the rename nothing changes; after it either generation may come back |
| WriteAheadLog.Wal.Install | src/wal.cc:313-349 | no work is accepted while the rename is unsettled; once it is, the log is the snapshot, all durable |
| WriteAheadLog.Wal.Cleanup | src/wal.cc:359-381 | removing what CURRENT no longer reaches leaves the log alone |
| WriteAheadLog.Wal.Compact | src/wal.cc:232-382 | whatever stops it, every state reopens to the old log with all promises or to exactly the snapshot; on success nothing else is left |
| Reopen.TrustworthyIffClean | src/wal.cc:128-197 | appends acknowledged after a reopen survive every power loss if and only if CURRENT and the newest segment's name were durable at open |
| Reopen.RotationUntrusted | src/wal.cc:212-230 | the image between a rotation's create and its directory sync opens to the whole log but cannot be trusted |
| Reopen.RenameUntrusted | src/wal.cc:313-320 | nor can the one between a compaction's rename and its sync |
| Persistence.CutRebuilds | src/store.cc:7-15 | cutting the log cuts the history the table is folded from |
| Persistence.SoundSurvivable | src/store.cc:7-24 | a sound log image rebuilds the store's history, at most its unpromised end missing |
| Snapshots.HistoryKeeps | src/store.cc:66-130 | records within the limits keep every job within them and under its own id |
| Snapshots.Collect | src/store.cc:27-32 | every job once, in whatever order the map yields |
| Snapshots.Sorted | src/store.cc:33-42 | the same jobs in snapshot order |
| Snapshots.SnapshotRebuilds | src/store.cc:26-49 | the encoded snapshot fits the log, and rebuilds jobs, index and key winners if and only if the index is exact |
| Leftovers.LeftSurvivable | src/store.cc:7-49 | every power loss from an image a store leaves reopens to its history, at most the unpromised end missing |
| Leftovers.LeftReopens | src/store.cc:7-49 | what it reopens to is again such an image, all promised |
| JobStores.JobStore.ApplyRecord | src/store.cc:66-130 | the in-place update is the transition the record prescribes |
| JobStores.JobStore.Commit | src/store.cc:17-24 | logged before applied; acknowledged and synced means promised; a refused record is at most the last one to come back |
| JobStores.JobStore.LogNumbered | src/store.cc:17-18 | the record in place k of the log carries number k, through every commit, compaction and reopening |
| JobStores.JobStore.Snapshot | src/store.cc:26-47 | the bodies written rebuild exactly the present table if and only if its index is exact |
| JobStores.JobStore.Compact | src/store.cc:26-49 | table and history do not change, nor, if the index is exact, does what a crash at any point brings back |
| JobStores.JobStore.Open | src/store.cc:7-15 | the table is the replay of the image; if an earlier store left it and nothing was in flight, nothing promised is missing and nothing else appears |
| Histories.NothingAckedIsLost | src/store.cc:7-49 | in every legal run each synced commit answered yes is in the history, in order, and nothing unattempted |
| Histories.ExactlyAcked | src/store.cc:17-24 | if every commit is synced, the history is the acknowledged records and, at each power loss, at most one whose commit was refused or cut short since the one before |
| Histories.OnePerStrike | src/store.cc:17-24 | so it exceeds them by no more than the number of power losses, and without one it is exactly them |
| Histories.AllAnswered | src/store.cc:17-24 | where no power fails and every commit is answered yes, the history is everything attempted |
| CrashRuns.Strike | src/wal.cc:128-197 | a possible power loss strikes, and the store then holds what the surviving image replays to: a part of what was held, no shorter than the promise |
| CrashRuns.CommitStep | src/store.cc:17-24 | a commit and its outcome are a legal step; on a reliable device it is refused only by a power loss |
| CrashRuns.Run | src/store.cc:7-49 | after any script every action has its outcome and the store is that of a legal run with these outcomes; a power loss strikes exactly if it is possible where it comes; on a reliable device every commit that is not struck is answered yes |
| Handlers.LeaseUsesOneAttempt | src/queue_node.cc:610-619 | a lease takes exactly one attempt, and the job is parked exactly when none is left; with the largest limit the number starts over at 0 instead |
| Handlers.ExpiryKeepsTheJob | src/queue_node.cc:664-671 | a lease that runs out leaves the job Ready exactly as it was, or parked exactly if that was its last attempt |
| Handlers.ParkedWhenUsedUp | src/queue_node.cc:610-671 | a job whose leases all run out is leased exactly as often as it has attempts left, whoever asks, and is parked with the last of them |
| Handlers.AckAccepted | src/queue_node.cc:748-774 | exactly which acks are accepted: the current lease's, of an older epoch too, a late completion nobody has leased over, and one of a parked job; a failure only sends the job back, a completion only completes it |
| Handlers.ReplacedLeaseCannotAck | src/queue_node.cc:748-774 | a lease that another one replaced can neither complete the job nor send it back; the current one can, and every accepted completion completes it |
| Handlers.TokenStaysIff | src/store.cc:66-130 | a record leaves the copy's (epoch, lease_seq) alone exactly if it is not an effective lease, epoch change or differing full copy |
| Handlers.GrantedToken | src/queue_node.cc:621-647 | the token handed to the worker is the committed lease's unless such a record came between |
| Handlers.ForeignToken | src/queue_node.cc:621-647 | if a newer epoch's copy did, the worker is handed another owner's token |
| Takeover.GrantsMerge | src/queue_node.cc:899-911 | the claim's best state and sequence number are the maxima over the start copy and all grants |
| Takeover.AcksAreDistinctMembers | src/queue_node.cc:844-913 | acks count distinct members, so a finished round holds a strict majority |
| Takeover.TakeoverMergeDominates | src/queue_node.cc:980-1014 | the finalized copy is Done if any source was, else parked if any was, else leased if any was or was ahead, with the largest sequence number |
| ClusterInv.InvInit | src/queue_node.cc:282-330 | the invariant holds of a fresh submit |
| ClusterInv.InvStep | src/queue_node.cc:411-1014 | every step keeps: one description, owner pinned, copies only on pinned members, attempts == lease_seq within the limit, body dropped exactly by completion, accepted submits on two members |
| ClusterInv.InvAlways | src/queue_node.cc:411-1014 | so it holds in every run, under any loss, delay, duplication and restart |
| Fencing.StepRises | src/store.cc:66-130 | no step of the cluster lowers any copy's (epoch, Done, DeadLetter) |
| Fencing.CopiesRiseAlways | src/store.cc:66-130 | nor does any run |
| Fencing.StaleOwnerCannotCommit | src/queue_node.cc:497-576 | once two of three members stand above epoch e, no commit begun afterwards at epoch e or below succeeds or is even acknowledged |
| Replies.OkIffConfirmed | src/queue_node.cc:411-426 | in every run a confirmation of a copy is on its way exactly if a copy was delivered to a peer that held no newer epoch |
| Replies.ConfirmedStands | src/queue_node.cc:417-425 | a peer that confirms a copy stands at that copy's epoch and not behind the copy |
| Replies.AckedIff | src/queue_node.cc:547-576 | a peer acknowledges a record exactly if it has the job, has seen no newer epoch, and knows the author as owner |
| Replies.GrantedIff | src/queue_node.cc:940-977 | a claim is granted exactly if its epoch is free at the granter or already the claimant's, with what the granter knew, and moves only epoch and owner |
| Replies.GrantedAgain | src/queue_node.cc:968-971 | after any run since, the same claim is granted again while the granter stands where it put it, and the granter never stands below |
| Replies.TakeoverCompletes | src/queue_node.cc:828-1014 | from any reachable state a takeover can be completed with one live member that has seen no newer epoch: the claimant ends as finalized owner one epoch up, of a copy with all that either of them knew |
| Votes.VoteStep | src/queue_node.cc:828-1014 | under the premises every finalized owner has a strict majority that voted for it alone in its epoch, and copies and records travel under such an authority |
| LeaseSafety.LeaseSafetyTheorem | src/queue_node.cc:497-649 | granted leases are pairwise distinct and ordered like epochs, reported completions and parkings stand, and later owners inherit all of it |
| LeaseSafety.LeaseSafetyFromOwners | src/queue_node.cc:497-649 | the same when claimants stay silent until finalized and copies are merged only from their owners |
| LeaseLimit.NumberWraps | src/queue_node.cc:610-619 | the last 32-bit lease number, sent back, is followed by number 0 |
| LeaseLimit.LargeLimitGrantsTwice | src/queue_node.cc:610-619 | with a larger limit every job has a run that keeps all premises and grants a number twice |
| LeaseLimit.LimitIsExact | src/queue_node.cc:610-619 | granted leases are distinct in every run that keeps the premises if and only if the limit is below 2^32 - 1 |
| Counterexamples.ReorderingGrantsTwice | src/store.cc:84-91 | a run that breaks only send order grants one sequence number twice |
| Counterexamples.IgnoredAckGrantsTwice | src/queue_node.cc:558-575 | a run that breaks only the premise on ignored records grants one sequence number twice |
| Counterexamples.OutdatedMergeGrantsTwice | src/queue_node.cc:1062-1080 | so does a run that only merges a granter's copy |
| Counterexamples.EarlyOwnerGrantsTwice | src/queue_node.cc:578-621 | so does one in which only a claimant acts before it is finalized |
| Counterexamples.StaleGrantGrantsTwice | src/queue_node.cc:879-914 | so does one in which only a grant of an abandoned round is counted |
| Quorum.AnswerStands | src/queue_node.cc:521-536 | an answer never changes, comes with the last reply at the latest, and is yes only after a success |
| Quorum.QuorumCommit.OnReply | src/queue_node.cc:521-536 | done is called at most once, exactly once after the last reply, and with true only if a peer answered kCreated |
| QuorumCalls.Collect | src/queue_node.cc:497-538 | fed by the call layer, done is called at most once, and once no call waits exactly once, with yes if and only if a peer answered kCreated |
| Quorum.Submits.Track | src/queue_node.cc:332-348 | a submit without replica slots is answered at once, any other waits |
| Quorum.Submits.OnReply | src/queue_node.cc:361-396 | each reply, from repair resends too, moves only its own submit, and an answer given stands |
| Quorum.Submits.ToldOnce | src/queue_node.cc:332-396 | the client is told at most once, kCreated only after a replica confirmed, and is not left waiting |
| QueueNodes.QueueNode.Log | src/store.cc:17-24 | everything the node shows is synced in its log |
| QueueNodes.QueueNode.Recover | src/queue_node.cc:58-79 | after a restart every owned ready job is queued, every owned lease has a full window, and every owned job awaits confirmation |
| QueueNodes.QueueNode.HandleApply | src/queue_node.cc:540-576 | each refusal is given exactly in its case; otherwise the copy is the fenced transition and the answer kCreated once that is durable, or the log has failed and nothing changed |
| QueueNodes.QueueNode.HandleReplicate | src/queue_node.cc:411-426 | refused as stale exactly if a copy of a larger epoch is held; a confirmed copy leaves the node at its epoch, not behind it, and durably so; nothing else changes |
| QueueNodes.QueueNode.HandleClaim | src/queue_node.cc:933-978 | a first-person claim of a pinned member is granted exactly if the epoch is free here or already the claimant's, a repeated one without a write, with the knowledge from before the grant; each refusal exactly in its case; a demoted node stands down |
| QueueNodes.ClaimReadBack | src/queue_node.cc:868-877 | a claim is read as it was sent, whatever bytes follow |
| QueueNodes.QueueNode.AfterOwnershipChange | src/queue_node.cc:1102-1119 | a demoted node keeps no claim, deadline, back-off or repair entry for the job; an owner queues it if it is ready |
| QueueNodes.QueueNode.QuorumCommit | src/queue_node.cc:497-538 | local commit first; only then one Apply per peer slot, in slot order |
| QueueNodes.FanOutIsPeers | src/queue_node.cc:43-51 | every pinned peer is addressed and nobody else |
| QueueNodes.FanOutSize | src/queue_node.cc:43-51 | one request per peer slot |
| QueueNodes.QueueNode.PickReady | src/queue_node.cc:584-598 | picks the first job in the queue that is owned, ready and not backing off, and loses none from the queue |
| QueueNodes.QueueNode.ReplicasReachable | src/queue_node.cc:469-477 | some other pinned member is alive, or there is none |
| QueueNodes.QueueNode.Lease | src/queue_node.cc:578-621 | the first leasable job is leased or parked as prescribed if a replica is reachable, and put back first if not; no job this node may grant drops out of the queue |
| QueueNodes.QueueNode.LeaseDone | src/queue_node.cc:621-648 | on success granted with a deadline and the copy's present token, otherwise expired on the spot and requeued with the prescribed back-off |
| QueueNodes.BackoffDoubles | src/queue_node.cc:459-462 | one second at first, twice as long after each attempt, never over a minute |
| QueueNodes.QueueNode.OwnerAck | src/queue_node.cc:732-786 | exactly the prescribed completions and expiries are committed, every other ack is refused, and a Done job is confirmed only when nothing awaits repair; a failed job is queued again with its back-off, and no other entry of the queue changes |
| QueueNodes.QueueNode.ConfirmedUnheard | src/queue_node.cc:732-743 | a late completion after an expiry is confirmed to the worker by the peers' answers to the expiry |
| QueueNodes.QueueNode.ExpiryTick | src/queue_node.cc:651-673 | exactly the due leases end: the job is ready again and queued for now, or parked exactly if its attempts are used up, and otherwise as it was; no other lease, copy or back-off changes |
| QueueNodes.QueueNode.StartTakeover | src/queue_node.cc:828-866 | begun exactly for a job owned elsewhere and not terminal, without an open claim, unless draining or the log fails: one epoch up here first, then an open claim, won at once if nobody else is pinned |
| QueueNodes.QueueNode.TakeGrant | src/queue_node.cc:879-914 | a grant is merged and counted once per member, and a majority finalizes; before that nothing else changes |
| QueueNodes.CountOne | src/queue_node.cc:886-911 | the slot loop counts a repeated grant only once |
| QueueNodes.QueueNode.RecordMerged | src/queue_node.cc:993-1005 | the branches record exactly the merged copy, and report exactly the leases that are inherited |
| QueueNodes.QueueNode.FinalizeTakeover | src/queue_node.cc:980-1014 | the claim is closed, the copy is the merged one, and the job is scheduled for what it is: an inherited lease, or one without a deadline, has a full visibility window from now, any other keeps its deadline, and no other job's changes |
| QueueNodes.QueueNode.WindowHonoured | src/queue_node.cc:1000-1011 | no expiry within one visibility window of the takeover touches an inherited lease, and the first one after it ends it |
| QueueNodes.QueueNode.TakeResync | src/queue_node.cc:1062-1080 | a resync answer is adopted exactly if it strictly advances the copy held; no other job changes |
| QueueNodes.QueueNode.MarkReplicaOk | src/queue_node.cc:479-495 | the peer's bit is set, and the repair entry goes exactly when every peer slot's is |
| Repair.BitsCounted | src/queue_node.cc:479-503 | the bits of an entry are the peers answered since it was opened, and it goes only when all have |
| Repair.GoneMeansTaken | src/queue_node.cc:479-503 | if every answer entered carried the latest transition, a missing entry means that every peer took it |
| Repair.TakenIffConfirmed | src/queue_node.cc:479-503 | that every peer took a transition holds in every world that explains the answers seen if and only if every peer answered a request that carried it |
| Repair.StaleProvesNothing | src/queue_node.cc:479-503 | if none of a peer's did, there is a world in which that peer lacks it |
| Repair.LateAnswersErase | src/queue_node.cc:497-526 | a run in which two late answers remove the entry of a transition neither peer has |
| QueueNodes.QueueNode.OwnerSubmit | src/queue_node.cc:282-330 | a known key is answered with its id, even while draining; a new one, when not draining, is minted at its placement and queued unless its record does not reach the log, and the index then names it |
| QueueNodes.QueueNode.Fallback | src/queue_node.cc:304-318 | this node first, then the first two live others |
| QueueNodes.MintedFresh | src/queue_node.cc:296-322 | a minted job is one the cluster model starts from: owned here, at epoch 1, no node in two slots |
| Simulation.ApplyStep | src/queue_node.cc:540-576 | a record that arrives moves copy and claim as the cluster step does and is acknowledged there too; a failed log changes nothing |
| Simulation.ReplicateStep | src/queue_node.cc:411-426 | so does a full copy |
| Simulation.ClaimStep | src/queue_node.cc:933-978 | so does a claim, and the grant sent back is the cluster's |
| Simulation.ResyncStep | src/queue_node.cc:1062-1080 | so does a resync answer; a failed log may drop the claim of a node that is not the owner |
| Simulation.GrantStep | src/queue_node.cc:879-914 | so does a grant; a failed log ends the round without a winner |
| Simulation.LeaseStep | src/queue_node.cc:578-621 | a lease that is committed is the cluster owner's step, with the same requests; other jobs are untouched |
| Simulation.AckStep | src/queue_node.cc:732-786 | so is an acknowledgement |
| Simulation.ExpiryStep | src/queue_node.cc:651-673 | so is an expiry |
| Simulation.LeaseDoneStep | src/queue_node.cc:621-648 | a lease that misses its quorum is expired as the cluster does it |
| Simulation.TakeoverStep | src/queue_node.cc:828-866 | a takeover that begins is the cluster's, with the same round |
| Simulation.SubmitStep | src/queue_node.cc:282-330 | an accepted submit is the start of a cluster run |
| QueueNodes.BestOf | src/queue_node.cc:252-280 | the status query returns one of the answers, and none of them advances it |
| Ring.Positions | src/ring.cc:26-39 | the nodes in ring order, none lost or added |
| Ring.OrderUnique | src/ring.cc:26-39 | a collection of nodes has only one ring order |
| Ring.ReplicaSet | src/ring.cc:57-78 | the search and wrap-around loops yield the first three of the clockwise walk from the key |
| Ring.PlacementByMembers | src/ring.cc:57-78 | placement does not depend on the order the members are listed in |
| Ring.ReplicasDistinct | src/ring.cc:57-78 | the replicas are distinct nodes of the ring, as many as there can be, and no node takes two slots |
| Ring.RemovalKeepsOrder | src/ring.cc:26-39 | what is left in ring order is the ring order of what is left |
| Ring.RemovalKeepsWalk | src/ring.cc:57-78 | when a node leaves, every walk is the old walk without it |
| Ring.RemovalKeepsOwner | src/ring.cc:52-78 | so no key of another owner changes owner |
| Idempotency.InvStep | src/queue_node.cc:205-330 | every step, compactions included, keeps: whatever id anyone knows for a key is the one the key's owner has settled on, ids carry one key, and every index is exact |
| Idempotency.OneIdPerKey | src/queue_node.cc:205-330 | in every run in which no nonce comes twice at most one id is known for a key anywhere, to nodes, messages or clients |
| Idempotency.SubmitAnswered | src/queue_node.cc:205-330 | a submit that reaches the owner is told the key's id if any node has one, and nothing else happens; otherwise, unless draining or the commit fails, a new one is minted, told and known |
| Idempotency.NoncesDiffer | src/queue_node.cc:296-297 | minted nonces coincide exactly when boots and counters agree in their low 32 bits |
| Idempotency.NextIsNew | src/queue_node.cc:296-297 | the id a node mints next was never minted before, while its boots differ in their low half and its counter has not gone round |
| Idempotency.CompactKeeps | src/store.cc:26-49 | a compaction of any node keeps the table its log stands for |
| Idempotency.ReusedNonceForgets | src/queue_node.cc:282-330 | if a boot id comes back, a run gives one key two ids |
| Calls.ExactlyOnce | src/rpc.cc:31-54 | every callback ever issued has fired once and waits no more, or has not fired and still waits |
| Rpc.RpcNode.Call | src/rpc.cc:31-54 | the callback fires at once or waits under a fresh id with the deadline, peer and callback given; its request then is with the session, or last in line with a greeting sent if one was due; other calls, requests and handshakes are left alone |
| Rpc.RpcNode.RunCallback | src/rpc.cc:173-181 | a callback leaves the books before it runs, so calling again from it is harmless |
| Rpc.RpcNode.FinishCall | src/rpc.cc:173-181 | fires a waiting call and no other; late and duplicate responses find nothing |
| Rpc.RpcNode.FailCallsTo | src/rpc.cc:151-161 | every call to the peer fires, no other does, and calls made meanwhile stay |
| Rpc.RpcNode.Teardown | src/rpc.cc:141-149 | the session and what waited for it are gone, the peer's calls have failed, and a greeting may go out at once; only requests made since then wait |
| Rpc.RpcNode.PeerDead | src/rpc.cc:163-171 | the peer is forgotten and its calls have failed, others and their requests untouched |
| Rpc.RpcNode.HandleHello | src/rpc.cc:65-106 | an ACK of this boot makes a session with its sender, and so does a HELLO from a boot that has acknowledged; a new boot drops the session, fails the peer's calls, and never gets a request made to the one before; any other ACK does nothing, a HELLO is answered; all this even if callbacks call again meanwhile, and no waiting call loses its request |
| Rpc.RpcNode.HandleStranger | src/rpc.cc:108-120 | a stranger is greeted at most once per interval, and nothing else changes |
| Rpc.RpcNode.TakeResponse | src/rpc.cc:183-191 | a response completes its call with its status, and no other call loses its request |
| Rpc.RpcNode.FlushPending | src/rpc.cc:132-139 | the session takes requests from the head of the line, each once and in order, and the rest still waits |
| Rpc.RpcNode.Tick | src/rpc.cc:228-261 | exactly the due calls time out, every peer with waiting requests and no session is greeted when due, and no waiting request is lost |
| Handshake.InvStep | src/rpc.cc:56-121 | every step keeps: sessions are acknowledged and acknowledgements are genuine |
| Handshake.SessionIsMutual | src/rpc.cc:65-106 | in every run a session with remote boot b means incarnation b ran there and itself acknowledged this incarnation, having heard from it |
| Handshake.RoundConnects | src/rpc.cc:56-106 | a greeting that arrives and its answer that arrives, with anything in between but a restart of the two, leave the greeter with a session to the peer's present incarnation |

## Left out

- HTTP server and client, event loop, mains, metrics, benchmarks, docs and the wasm export: no hard property.
- taut itself (sessions, SWIM, CRC32C): a session takes a frame or pushes back, liveness is a set of endpoints, the checksum is any function of the body.
- HELLO, RPC and submit-parameter encodings: fixed-width fields, encoded like those of the records.
- Time: deadlines and back-off are natural numbers; liveness of repair and expiry is not modelled.
- Drain and repair loops: apart from the repair entry they only decide when claims, copies and takeovers happen; the cluster model lets every one of these happen at any time.
- Lease safety without the premises: for each one a run shows that it cannot be dropped alone; weaker premises are not looked for.
- Simulation of restarts, of copies that are sent and of the confirmation of a commit: the node class has no method for them, so they are steps of the cluster only.
- One cluster state holds one job: jobs do not interact except through the table, which `Store.TableIsPerJob` covers.
- Hash quality of FNV-1a and splitmix64: both are parameters.
- Unsynced truncation: the torn tail cut by open is modelled as gone at once; on a real disk it may come back torn, which replays the same.
- Removal during compaction cleanup is one step per directory, because nothing there is reachable any more.
- EINTR is retried by the source and is not a step; test hooks of the log are not modelled.
- The durability of the data directory's own name in its parent, and of everything below it when a directory entry other than the newest segment's is unsynced.
- Replay of records that were read back but not yet synced after a restart without a power loss: they count as unpromised until the next synced append.
- WriteAheadLog.Wal.MakeGeneration: generation numbers are unbounded here; the source gives up at 2^64 - 1, as the model does, but would wrap if it had started there.
- Rpc.RpcNode.Call: request ids are unbounded here; the source's 64-bit counter would have to wrap for an id to repeat.
- Idempotency.OneIdPerKey: a restart finds every committed record again, which is what `Leftovers.LeftReopens` gives for synced commits after a power loss.
