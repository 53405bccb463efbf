# A verified model of the checker, the Raft server and MapReduce

This project models three parts of the repository in Dafny and proves what they are for.
Nothing was executed; every statement below is a Dafny contract.

**The linearizability checker** (`src/porcupine`, `src/models/kv.go`). `CheckSingle` is the
backtracking search over a doubly linked list of call and return nodes, with lift and unlift, a
stack of saved states, a bitset of placed operations and a hash cache of configurations. It
returns true exactly when some legal order of all operations respects real time, although the
cache makes it skip branches; it always ends; and the partial linearizations it keeps when it
rejects are the longest there are. Around it: entries are built from recorded operations, parts
of a history are checked concurrently under every interleaving, and the key/value partition is
local, so that the verdict on the per-key groups is the verdict on the whole store.

- `Collections`: shared types. `Linearizability`, `Histories`: what a history, a legal order and a
  partial order are.
- `Search`: the search without its data structures, and why the cache loses nothing.
- `Bitsets`, `Caches`, `LinkedEntries`: the mutable structures, each against a plain set or order.
- `Checker`: the search as the program runs it. `Sealing` keeps its large invariants closed.
- `Sorting`, `Entries`, `KvStore`, `Locality`, `Parallel`, `Porcupine`: from operations to verdicts.
- `Events`, `KvEvents`: the same for streams of events. The key/value model has no partition of
  events, so that a stream is judged as if all were one key: right exactly for one key.

**Raft** (`src/raft/raft.go`). A cluster is a state machine: one event is one turn of one
server's main loop, the network is a set of messages, and a crash, which may fall between the
records a handler saves, keeps only the last record saved. In every run without snapshots:
Election Safety, Log Matching in memory and on disk, Leader Completeness, State Machine Safety as
sequences of commands that are prefixes of one another, commit coverage and fast back-up, for this
code and not for the paper's pseudocode. Beside what must not happen stands what must: when a vote
is granted, a leader elected, a message sent, an index committed, each if and only if, and runs in
which any commands reach every server. The handlers themselves are methods of a class, proved equal
to the functions the cluster is built from, including the sequence of records they save. A
compacting server is shown to keep what an uncompacted one would and to vote like it, through
crashes, also between the records of an append, exactly when its record was saved with the
snapshot's data and each snapshot goes beyond the one before; a run from the start that loses its
numbering otherwise is constructed.

- `RaftProtocol`: terms, votes, reigns and acknowledgements as a history, and what seven abstract
  actions keep. `RaftPeer`: each handler as a function. `RaftCluster`: the state machine.
- `RaftLogs`, `RaftInvariant`, `RaftElections`, `RaftReplication`: the invariant, event by event.
- `RaftSafety`, `RaftApplied`: the theorems over runs. `RaftResponses`: when servers must act and
  what they answer. `RaftProgress`: runs that get work done.
- `RaftServer`: the class. `RaftCompaction`: compaction.

**MapReduce** (`src/mr`, `src/main/mrsequential.go`). The partitioned map, sort and reduce write,
over all reduce tasks, the same lines as the sequential program. The coordinator hands out a
reduce task only after every map task reported to it, in every interleaving with retries, exactly
when there are at most ten reduce tasks or at most eleven map tasks: beyond that the job names,
two decimal numbers written one after the other, collide, and a run that breaks the dependency is
constructed for every such size. With the workers and their files, every finished run leaves all
output files, and they hold the sequential program's lines in all runs exactly up to that size;
beyond it a run in which every worker reports in order finishes with pairs lost. No run loses a
task that is still owed, and the coordinator stops, by closing a channel twice, only after a retry.

- `MapReduce`: the data path. `JobIds`: job names. `JobGraph`: the coordinator as a state machine.
- `JobSafety`: the dependency theorem and its exact condition. `JobConservation`: no job is lost.
  `JobQueue`: the coordinator's methods.
- `MapReduceRuns`: coordinator, workers and files in one state machine, and what finished runs
  leave when names do not collide. `LostPairs`: what they leave when names do, and the exact condition.

Where code and comments disagree the code is followed: the comment at
`src/porcupine/checker.go:64` says a call has no match; in the code a call's match is its return
and a return has none. The class methods model one goroutine's work between two blocking points.

## Model

| member | source | states |
|---|---|---|
| `Linearizability.LinearizationIffFullPartial` | src/porcupine/checker.go:179-253 | an order linearizes the history if and only if it is a partial linearization of all operations, the form the search builds |
| `Linearizability.SameLinearizations` | src/porcupine/checker.go:48-60 | problems with the same operations and the same real-time order have the same linearizations |
| `Search.PushInv` | src/porcupine/checker.go:200-207 | placing an enabled operation whose configuration enters cache and stack together keeps the search invariant |
| `Search.SkipInv` | src/porcupine/checker.go:208-213 | passing over an operation that is not allowed, or leads to a cached configuration, keeps the search invariant |
| `Search.PopInv` | src/porcupine/checker.go:235-241 | taking back the last operation when nothing is left to place keeps the search invariant: every cached configuration is on the stack or exhausted |
| `Search.RecordInv` | src/porcupine/checker.go:218-234 | keeping longer prefixes keeps the search invariant |
| `Search.PartialIsCovered` | src/porcupine/checker.go:198-210 | when all cached configurations are exhausted, every partial linearization there is leads to a cached one: skipping lost nothing |
| `Search.ExhaustedRefutes` | src/porcupine/checker.go:215-217 | with the stack empty and nothing left, no complete order exists, and each kept prefix is as long as any partial linearization through its operation |
| `Search.PushShrinks` | src/porcupine/checker.go:200-207 | each configuration entered leaves strictly fewer of finitely many to enter: the search ends |
| `Bitsets.NewBitset` | src/porcupine/bitset.go:10-17 | a new bitset denotes the empty set and has just enough words |
| `Bitsets.Clone` | src/porcupine/bitset.go:19-23 | a clone is a fresh array with the same words |
| `Bitsets.Set` | src/porcupine/bitset.go:29-33 | setting a position adds it to the set denoted |
| `Bitsets.Clear` | src/porcupine/bitset.go:35-39 | clearing a position removes it from the set denoted |
| `Bitsets.Get` | src/porcupine/bitset.go:41-44 | a position is reported present if and only if it is in the set denoted |
| `Bitsets.Popcnt` | src/porcupine/bitset.go:46-52 | the count is the cardinality of the set denoted |
| `Bitsets.Hash` | src/porcupine/bitset.go:54-60 | the hash is determined by the words: count truncated to a word, xor of all words |
| `Bitsets.HashIsParity` | src/porcupine/bitset.go:54-60 | bit k of the hash tells, of the set denoted, the parity of the elements that leave remainder k modulo 64, flipped when the number of elements has binary digit k |
| `Bitsets.Equals` | src/porcupine/bitset.go:62-72 | bitsets of one length are reported equal if and only if they denote the same set |
| `Bitsets.DenoteInjective` | src/porcupine/bitset.go:54-72 | word arrays of one length that denote the same set are the same, so equal sets hash equally |
| `Bitsets.PopCountIsCardinality` | src/porcupine/bitset.go:46-52 | the sum of ones over all words is the number of elements |
| `Caches.Cache.Contains` | src/porcupine/checker.go:145-152 | one bucket decides membership, up to the model's equality, in the set of all configurations inserted |
| `Caches.Cache.Insert` | src/porcupine/checker.go:201-202 | inserting appends exactly this configuration; everything stored before stays what it was |
| `Caches.Cache.InBucket` | src/porcupine/checker.go:145-152 | a stored configuration is in the bucket its bitset hashes to |
| `LinkedEntries.InsertBefore` | src/porcupine/checker.go:70-81 | all six link outcomes of inserting a node before a mark, for no mark, a first mark and an inner mark |
| `LinkedEntries.MakeLinkedEntries` | src/porcupine/checker.go:121-138 | one fresh node per entry, in order, doubly linked, each call matched with its own return |
| `LinkedEntries.Length` | src/porcupine/checker.go:83-90 | the number of nodes of the list |
| `LinkedEntries.Lift` | src/porcupine/checker.go:159-167 | the list is then the same without call and return; the two remember their neighbours; nodes outside the list are untouched, also when call and return are adjacent or the return is last |
| `LinkedEntries.Unlift` | src/porcupine/checker.go:169-177 | from what lifted nodes remember, the list with call and return in place is restored |
| `LinkedEntries.LiftThenUnlift` | src/porcupine/checker.go:159-177 | lifting and putting back restores next and prev of every node |
| `Checker.RecordLongest` | src/porcupine/checker.go:219-234 | the stack becomes the kept prefix exactly of those of its operations that had none as long |
| `Checker.TryEnter` | src/porcupine/checker.go:198-205 | a configuration is entered if and only if the cache does not cover it; bitset and cache follow the search state |
| `Checker.PlaceCall` | src/porcupine/checker.go:203-207 | placing a call keeps list, stack, cursor and search invariant, and leaves fewer configurations to enter |
| `Checker.Backtrack` | src/porcupine/checker.go:235-241 | taking a call back keeps them too, with the cursor behind that call |
| `Checker.AtReturn` | src/porcupine/checker.go:214-242 | at a return the stack gets shorter and everything else is kept |
| `Checker.AtCall` | src/porcupine/checker.go:194-213 | at a call either a new configuration is entered or the cursor moves on |
| `Checker.Turn` | src/porcupine/checker.go:193-242 | one turn keeps them all and comes nearer the end by a well-founded measure, or finds that nothing is placed and nothing can be, which refutes the history |
| `Checker.CheckSingle` | src/porcupine/checker.go:179-253 | true comes with one order that linearizes the history; false, unless killed, means none exists; kept prefixes are legal, contain their operation and, after a full rejection, are of maximal length, and there are none when they were not asked for; the flag is looked at no fewer times than operations are placed and a look that finds it set is the last, with the answer false; it terminates |
| `Entries.MakeEntries` | src/porcupine/checker.go:48-60 | exactly the calls and returns, sorted by time with calls first at equal times; well-formed if and only if no operation returns before its call |
| `Entries.SameOperations` | src/porcupine/checker.go:39-60 | the sorted entries pose the same problem as the recorded times: a before b if and only if a returned strictly before b was called |
| `KvStore.Partition` | src/models/kv.go:18-34 | one non-empty group per key that occurs, keys increasing, each group all of that key's operations in order |
| `KvStore.KvCoherent` | src/models/kv.go:35-54 | equal states take equal steps |
| `KvStore.KvMeaning` | src/models/kv.go:35-54 | an order of operations on a key is legal if and only if every get returns what was put last before it followed by all that was appended since |
| `Locality.StoreRun` | src/models/kv.go:40-54 | the whole store allows an order if and only if every key allows its part, and then holds per key what that key alone would |
| `Locality.ProjectLinearization` | src/models/kv.go:18-54 | a linearization of the store, restricted to a key, linearizes that key's operations |
| `Locality.Points` | src/porcupine/model.go:28-31 | every linearization has points in time, rising along the order and inside each operation's interval |
| `Locality.MergeAll` | src/porcupine/model.go:28-31 | linearizations of all keys merge, by their points, into one order of everything |
| `Locality.PartitionIsLocal` | src/porcupine/model.go:28-31 | the store's history is linearizable if and only if every per-key group is |
| `Parallel.VerdictIsTrue` | src/porcupine/checker.go:274-353 | in every interleaving of workers looking at the flag, results, kill and timeout: Illegal exactly when a partition heard in the loop is not linearizable, Unknown exactly after a timeout with all heard ones linearizable, Ok only if all partitions are; all are heard without a timeout, except that without information the first that is not linearizable is the last heard |
| `Parallel.Work` | src/porcupine/checker.go:281-285 | whatever each look at the kill flag finds, true is right, and false is right if no look found it set |
| `Parallel.SentIsTrue` | src/porcupine/checker.go:281-310 | a result sent while the flag is not set is the truth: no look can have found it set |
| `Parallel.RunWorker` | src/porcupine/checker.go:280-286 | a worker that is not killed decides its partition |
| `Parallel.Collect` | src/porcupine/checker.go:291-310 | ok is the truth of the partitions heard, whatever order results come in; the timeout ends the loop where it is first found, the first bad result does so if no information is wanted, and otherwise all are heard |
| `Parallel.WaitForRest` | src/porcupine/checker.go:312-318 | waiting for the remaining workers adds legal prefixes and leaves the others alone |
| `Parallel.CheckParallel` | src/porcupine/checker.go:274-353 | the answer is Illegal, Unknown or Ok exactly as the partitions heard and the timeout demand, with what is heard exact as for the loop; each partition's kept prefixes are legal and, without a timeout, longest; without partitions only a timeout ends it, with Unknown |
| `Porcupine.CheckPartitions` | src/porcupine/checker.go:365-373 | for a partition that splits the problem, Ok and Illegal are true of the whole, and each answer is given exactly when the parts heard and the timeout demand it |
| `Porcupine.CheckOperations` | src/porcupine/porcupine.go:5-8 | without a partition function: true if and only if the recorded operations are linearizable |
| `Porcupine.CheckKvTimeout` | src/porcupine/porcupine.go:10-15 | for the key/value model the verdict on the groups is true of the whole store, and given exactly when the keys heard and the timeout demand it; an empty history ends with the timeout, with Unknown |
| `Porcupine.CheckKvOperations` | src/porcupine/porcupine.go:5-8 | true if and only if the history is linearizable against the whole store |
| `Events.Renumber` | src/porcupine/checker.go:92-106 | ids become 0..n-1, equal ones equal and different ones different; nothing else changes |
| `Events.ConvertEntries` | src/porcupine/checker.go:108-119 | one entry per event, with its position as time |
| `Events.MakeEventEntries` | src/porcupine/checker.go:355-362 | a stream in which each id has one call and a later return becomes a well-formed history |
| `Events.SameEvents` | src/porcupine/checker.go:92-119 | these entries pose the problem the stream poses |
| `Events.AnyNumbering` | src/porcupine/checker.go:92-106 | whether a stream is linearizable does not depend on how its operations are numbered |
| `Events.CheckEventPartitions` | src/porcupine/checker.go:355-363 | Ok means all parts of a stream are linearizable; Illegal and Unknown are answered exactly when the parts heard and the timeout demand it |
| `Events.CheckEvents` | src/porcupine/porcupine.go:23-26 | without a partition of events: true if and only if the stream is linearizable |
| `KvEvents.OneKeyEvents` | src/models/kv.go:17-54 | a stream on one key is judged rightly as a history of the store |
| `KvEvents.TwoKeysMistaken` | src/porcupine/checker.go:259-261 | put at one key, then read another, for any two keys: the history that finds nothing there is fine for the store and rejected, the one that finds the value is no history of the store and accepted, because the model partitions no events |
| `KvEvents.KvEventsExact` | src/models/kv.go:17-54 | all streams over a set of keys get the store's verdict if and only if the set has at most one key |
| `RaftProtocol.LogMatching` | src/raft/raft.go:1022-1095 | two logs whose entries were all written by leaders and share a term at an index agree up to it |
| `RaftProtocol.OneWinner` | src/raft/raft.go:365-371 | two majorities of votes in a term elect the same candidate |
| `RaftProtocol.UpToDateCarries` | src/raft/raft.go:918-936 | of any leader's entry in the voter's log: a log at least as up to date carries it with all before it, or some leader of a term in between started without it |
| `RaftProtocol.CommittedCarries` | src/raft/raft.go:918-936 | of a committed entry in the voter's log: every log it may vote for carries it with all before it |
| `RaftProtocol.LeaderAcks` | src/raft/raft.go:1284-1291 | a leader has itself stored every entry of its own term, so counting starts at one |
| `RaftProtocol.LeaderCompleteness` | src/raft/raft.go:1281-1300 | what a leader committed by the majority rule is below the start of every later leader's own entries |
| `RaftProtocol.CastVoteKeeps` | src/raft/raft.go:918-936 | casting a vote keeps the protocol invariant |
| `RaftProtocol.ElectKeeps` | src/raft/raft.go:365-371 | taking office with a majority keeps it |
| `RaftProtocol.WriteKeeps` | src/raft/raft.go:1163-1183 | a leader's new entry keeps it |
| `RaftProtocol.FollowKeeps` | src/raft/raft.go:1065-1095 | a follower's log moving towards its leader's keeps it |
| `RaftProtocol.AcknowledgeKeeps` | src/raft/raft.go:1063-1109 | acknowledging the leader's entries keeps it |
| `RaftLogs.AcceptedLog` | src/raft/raft.go:1065-1095 | truncating at the first conflict and appending beyond the end yields the leader's log up to the message's end, and every log saved on the way keeps all on which both agree |
| `RaftElections.ElectionTimeoutKeeps` | src/raft/raft.go:1360-1383 | starting an election keeps the cluster invariant |
| `RaftElections.NotVotedYet` | src/raft/raft.go:900-945 | a request still to be delivered was not granted: the refusal that resets the vote erases none |
| `RaftElections.VoteRequestKeeps` | src/raft/raft.go:900-945 | answering a vote request keeps the cluster invariant |
| `RaftElections.CrashInVoteKeeps` | src/raft/raft.go:900-945 | so does a crash after any record saved while answering |
| `RaftElections.VoteReplyKeeps` | src/raft/raft.go:351-371 | counting a reply, and taking office on a majority, keeps it |
| `RaftElections.StepDownKeeps` | src/raft/raft.go:562-567 | giving way to a higher term keeps it |
| `RaftElections.CrashKeeps` | src/raft/raft.go:628-647 | a crash between events and restart from the last record keeps it |
| `RaftReplication.StartKeeps` | src/raft/raft.go:1163-1183 | a client's command at any server keeps it |
| `RaftReplication.HeartbeatKeeps` | src/raft/raft.go:1218-1278 | sending a heartbeat keeps it |
| `RaftReplication.EntriesKeep` | src/raft/raft.go:1186-1278 | sending the log from nextIndex to its end keeps it, and the indexing is in range |
| `RaftReplication.AppendKeeps` | src/raft/raft.go:1022-1109 | handling an append keeps it |
| `RaftReplication.CrashInAppendKeeps` | src/raft/raft.go:1065-1095 | so does a crash after any of the records saved per entry |
| `RaftReplication.CommitCoverage` | src/raft/raft.go:1080-1107 | the commit index taken over, bounded before appending and over the whole log, does not go back, lies in the log and covers only entries agreeing with the sender |
| `RaftReplication.RejectionOk` | src/raft/raft.go:1043-1061 | a rejection names no term exactly when the log is too short, and otherwise the term of the entry at PrevLogIndex and the first index of that term in the log; the named term's leader wrote that entry |
| `RaftReplication.BackUpProgress` | src/raft/raft.go:505-515 | after a rejection the next index lies in 1..PrevLogIndex |
| `RaftReplication.AppendReplyKeeps` | src/raft/raft.go:483-524 | handling a reply keeps the cluster invariant |
| `RaftReplication.ScanFindsLast` | src/raft/raft.go:1281-1300 | the scan ends at the largest index the majority rule allows, or stays |
| `RaftReplication.MajorityCommits` | src/raft/raft.go:1281-1300 | an index the rule allows is committed in the protocol's sense |
| `RaftReplication.SnapshotKeeps` | src/raft/raft.go:768-796 | an install-snapshot request without data keeps the invariant; a higher term is taken over with status and vote, and no other field, server, message or delivery changes |
| `RaftReplication.ApplyKeeps` | src/raft/raft.go:1303-1319 | applying is in range and keeps the invariant |
| `RaftSafety.EventKeeps` | src/raft/raft.go:241-263 | every enabled event is in range and keeps the cluster invariant while the history only grows |
| `RaftSafety.NoPanic` | src/raft/raft.go:1186-1319 | in every run no handler indexes out of range |
| `RaftSafety.ElectionSafety` | src/raft/raft.go:336-371 | in every run a term has at most one leader, at whatever moments the two are observed |
| `RaftSafety.VoteStands` | src/raft/raft.go:900-945 | in every run a vote stands for the rest of its term, through refusals and crashes |
| `RaftSafety.LogsMatch` | src/raft/raft.go:1022-1095 | in every run two logs, in memory or on disk, at whatever moments, with the same term at an index agree up to it |
| `RaftSafety.LeadersComplete` | src/raft/raft.go:1281-1319 | in every run what any server has committed is in the log of every leader of a later term |
| `RaftSafety.MajorityIsFinal` | src/raft/raft.go:1281-1300 | in every run an index that meets the majority rule is, with all before it, in every later leader's log |
| `RaftSafety.MessageCoversCommit` | src/raft/raft.go:1186-1267 | in every run LeaderCommit of a message is at most PrevLogIndex plus the number of entries |
| `RaftSafety.CommitNeverBack` | src/raft/raft.go:1099-1107 | within an incarnation the commit index never goes back and never passes the end of the log |
| `RaftSafety.FastBackUp` | src/raft/raft.go:505-515 | in every run a current rejection moves nextIndex into 1..PrevLogIndex |
| `RaftApplied.ApplyExact` | src/raft/raft.go:1303-1319 | one turn delivers commitIndex - lastApplied messages, the k-th with index lastApplied + 1 + k and the command the log has there |
| `RaftApplied.CommittedStays` | src/raft/raft.go:1022-1109 | no event but a crash of the server changes the entries it has committed |
| `RaftApplied.DeliveredInOrder` | src/raft/raft.go:1303-1319 | in every run, what a server has passed on since it started is the commands of its log at indices 1 to lastApplied, in order, none twice, none left out |
| `RaftApplied.StateMachineSafety` | src/raft/raft.go:1303-1319 | of what any two servers have passed on, at any two moments of a run, one is a prefix of the other |
| `RaftResponses.VoteGrantedIff` | src/raft/raft.go:900-945 | a vote is granted if and only if the request is of no earlier term, the term's vote has not gone elsewhere and the voter's log does not end beyond the candidate's in term and index; state, term told and last record are exact |
| `RaftResponses.EqualLogGranted` | src/raft/raft.go:931-938 | a candidate with the voter's own log gets its vote if and only if the log is not empty or the snapshot term the candidate remembers is no smaller |
| `RaftResponses.AsksAll` | src/raft/raft.go:1360-1397 | a candidate asks every other server in a new term, telling where its log ends, with its own vote on record |
| `RaftResponses.VoteReplyExact` | src/raft/raft.go:351-371 | a later term is given way to; otherwise the vote is counted and office taken exactly with more than half, next indices behind the log and match indices zero |
| `RaftResponses.ElectedIff` | src/raft/raft.go:351-371 | in every run a candidate that reads an answer of its term becomes leader if and only if the set of servers that voted for it is a majority |
| `RaftResponses.CommandExact` | src/raft/raft.go:1163-1183 | a leader takes the command at the index it tells, in the term it tells, on record first; any other server changes nothing |
| `RaftResponses.StartPromise` | src/raft/raft.go:1127-1183 | in every run, whoever later holds an entry of that term at that index holds that command |
| `RaftResponses.BroadcastExact` | src/raft/raft.go:1186-1215 | a server is sent something if and only if its next index is in the log, and then all entries from there with the index and term before them and the commit index |
| `RaftResponses.HeartbeatExact` | src/raft/raft.go:1218-1267 | a heartbeat asks about the end of the log and tells the commit index |
| `RaftResponses.AppendAnswered` | src/raft/raft.go:1022-1062 | an append succeeds if and only if it is of no earlier term and the log has the entry before it; term told, status and vote afterwards are exact, and a failure leaves log and commit index |
| `RaftResponses.CutExact` | src/raft/raft.go:1065-1078 | truncation keeps the log up to the first position an entry contradicts, and all of it without one |
| `RaftResponses.FollowerCommits` | src/raft/raft.go:1080-1107 | in every run the commit index after accepting is the larger of the old one and the leader's, the latter bounded by the entries kept if there are any |
| `RaftResponses.EmptySnapshotExact` | src/raft/raft.go:768-796 | without data an install-snapshot request is answered with the term before it; state and record afterwards are exact |
| `RaftResponses.RestartExact` | src/raft/raft.go:198-238 | a restart takes term, vote, log and snapshot from the record and can go on applying from the snapshot |
| `RaftResponses.CommittableIff` | src/raft/raft.go:1281-1300 | the count is the majority rule: the leader and the servers known to hold the index are more than half, and the entry is of the current term |
| `RaftResponses.LeaderCommits` | src/raft/raft.go:1281-1300 | the commit index moves to the last index that meets the rule, and stays if none beyond it does |
| `RaftResponses.AnswerExact` | src/raft/raft.go:483-524 | each answer exactly: stale ones change nothing, a later term is given way to, a success notes how far the server got and commits by the rule, a rejection backs up to the last entry of the conflicting term or to where the follower's begins |
| `RaftProgress.LeaderElected` | src/raft/raft.go:329-371 | for every number of servers from two on, a run from the start that reaches a leader with no more votes than a majority needs |
| `RaftProgress.CommandsReachAll` | src/raft/raft.go:241-560 | for every number of servers from two on and every sequence of commands, a run from the start at whose end every server has passed on exactly these commands, in order |
| `RaftProgress.EqualLogRefused` | src/raft/raft.go:218-221 | a run in which a vote on equal logs is refused: both are empty, but the voter has restarted |
| `RaftServer.Raft.Make` | src/raft/raft.go:198-238 | a server starts from the last record saved |
| `RaftServer.Raft.Persist` | src/raft/raft.go:595-623 | one more record, of the fields as they are |
| `RaftServer.Raft.HandleHigherTermFound` | src/raft/raft.go:562-567 | term taken over, vote cleared, record saved |
| `RaftServer.Raft.StartElection` | src/raft/raft.go:1360-1383 | equals the candidacy the cluster is built from, with request and record |
| `RaftServer.Raft.HandleRequestVote` | src/raft/raft.go:900-945 | equals the handler the cluster is built from, with reply and every record saved, in order |
| `RaftServer.Raft.ReceiveVote` | src/raft/raft.go:351-371 | equals the counting of a reply, including taking office |
| `RaftServer.Raft.InitLeader` | src/raft/raft.go:421-438 | next indices behind the last entry, match indices zero |
| `RaftServer.Raft.TruncateConflicts` | src/raft/raft.go:1065-1078 | the log is cut at the first conflict and saved if it was cut |
| `RaftServer.Raft.AppendEntriesBeyond` | src/raft/raft.go:1088-1095 | entries beyond the end are appended, one record per entry, in order |
| `RaftServer.Raft.AcceptEntries` | src/raft/raft.go:1065-1107 | log, commit index and records equal accepting in the cluster model |
| `RaftServer.Raft.HandleAppendEntries` | src/raft/raft.go:1022-1109 | state, reply and records equal the handler the cluster is built from |
| `RaftServer.Raft.OnAppendEntries` | src/raft/raft.go:395-404 | with the candidate's extra step: state, reply and records equal the event the cluster is built from |
| `RaftServer.Raft.HandleCommand` | src/raft/raft.go:1163-1183 | a leader appends and saves, others refuse |
| `RaftServer.Raft.MakeAppend` | src/raft/raft.go:1232-1267 | previous index, term and commit index of a message, for heartbeats and for entries |
| `RaftServer.Raft.BroadcastTo` | src/raft/raft.go:1186-1215 | the entries from nextIndex to the end, or nothing |
| `RaftServer.Raft.UpdateCommitIndex` | src/raft/raft.go:1281-1300 | the loop equals the scan of the majority rule |
| `RaftServer.Raft.ReceiveAppendReply` | src/raft/raft.go:483-524 | progress, back-up and commit equal the cluster's reply handling |
| `RaftServer.Raft.ApplyToClient` | src/raft/raft.go:1303-1319 | exactly the commands between lastApplied and commitIndex, in order |
| `RaftServer.Raft.TakeSnapshot` | src/raft/raft.go:674-701 | the front of the log is dropped and the term at the index remembered, as compaction below assumes |
| `RaftServer.Raft.HandleInstallEmpty` | src/raft/raft.go:768-796 | without data only the term is affected |
| `RaftCompaction.StepSame` | src/raft/raft.go:674-695 | a command, an append from the snapshot on, a request for a vote, a snapshot, or a crash, between events or after any record inside an append, whose record restores, treats compacted and full server alike: log, term, status and vote, in memory and on disk |
| `RaftCompaction.CompactionRefines` | src/raft/raft.go:674-695 | over any sequence of these, retained entries are numbered from snapshotIndex + 1 and equal the uncompacted log's, and both logs end at the same index |
| `RaftCompaction.SnapshotTermIff` | src/raft/raft.go:674-695 | after a snapshot the term remembered is the uncompacted log's at that index if and only if the snapshot goes beyond the one before (or that term is -1, which is remembered otherwise) |
| `RaftCompaction.VotesAlikeIff` | src/raft/raft.go:900-945 | compacted and full server answer all requests for votes alike if and only if the compacted log is not empty or its snapshot term is right |
| `RaftCompaction.TermsStay` | src/raft/raft.go:595-695 | every event keeps the snapshot terms in memory and on record right, if each snapshot goes beyond the one before |
| `RaftCompaction.CompactionVotes` | src/raft/raft.go:674-945 | so over any such sequence both logs end at the same term and index and every request for a vote is answered alike |
| `RaftCompaction.CommitAlikeIff` | src/raft/raft.go:1080-1107 | from the same commit index an accepted append leads to the same one if and only if the compacted server keeps an entry, has no snapshot, or the leader's commit index does not pass the snapshot |
| `RaftCompaction.RecordRestores` | src/raft/raft.go:595-647 | a record restores the compacted log if and only if it was saved with the snapshot's data or without a snapshot |
| `RaftCompaction.CrashExact` | src/raft/raft.go:595-647 | a crash leaves the compacting server with the uncompacted one's log if and only if its last record restores |
| `RaftCompaction.SavedCompact` | src/raft/raft.go:1065-1095 | record by record, what an append saves on the compacting server is the compaction of what it saves on the uncompacted one |
| `RaftCompaction.CrashInExact` | src/raft/raft.go:1065-1095 | a crash after any record of an append leaves the uncompacted server's log if and only if the snapshot came with data or there is none |
| `RaftCompaction.NumberingLost` | src/raft/raft.go:674-695 | from a fresh server: an append, a snapshot without data, one more append and a crash leave the entry of index 2 at index 1 |
| `RaftCompaction.DataIsRecoverable` | src/raft/raft.go:674-701 | when every snapshot comes with data, every record restores |
| `RaftCompaction.EventsSaveAll` | src/raft/raft.go:900-1183 | the last record an append, a command or a request for a vote saves is of the state it leaves; without a record it changed nothing a record holds |
| `MapReduce.ReduceSorted` | src/mr/worker.go:192-208 | grouping a sorted sequence reduces each key exactly once, with all its values, in the order of keys |
| `MapReduce.Sequential` | src/main/mrsequential.go:38-84 | the sequential program reduces each key of all map outputs exactly once, in the order of keys |
| `MapReduce.GroupByReducer` | src/mr/worker.go:90-95 | each bucket holds exactly the pairs whose key hashes to it, in order; empty ones do not exist |
| `MapReduce.MapTask` | src/mr/worker.go:79-130 | one output per reduce task, holding that task's bucket, and none exactly when the bucket is empty |
| `MapReduce.ReduceTask` | src/mr/worker.go:175-208 | a reduction of everything in its input files, missing ones skipped, in the order of keys |
| `MapReduce.ColumnIsBucket` | src/mr/worker.go:175-185 | files that hold one reduce task's buckets of all inputs hold, concatenated, its bucket of all map outputs |
| `MapReduce.GatheredIsBucket` | src/mr/worker.go:175-185 | what a reduce task reads is the bucket of the concatenated map outputs |
| `MapReduce.PartitionedReduction` | src/mr/worker.go:90-95 | over all reduce tasks every key is reduced exactly once, with all its values |
| `MapReduce.ReductionUnique` | src/main/mrsequential.go:68-84 | two reductions of the same pairs differ at most in order |
| `MapReduce.SortedReductionUnique` | src/main/mrsequential.go:68-84 | in the order of keys there is only one reduction |
| `MapReduce.LineRoundTrip` | src/mr/worker.go:205 | a line split at its first space gives back key and value, for keys without a space |
| `MapReduce.SameLines` | src/mr/worker.go:175-208 | for any map function, hash and order-insensitive reduce function, all output files together hold the sequential program's lines |
| `MapReduce.RunBoth` | src/main/mrsequential.go:38-84 | a distributed and a sequential run, side by side, write the same lines |
| `MapReduceRuns.BucketFileInjective` | src/mr/worker.go:119 | no two pairs of tasks share an intermediate file |
| `MapReduceRuns.ReadsItsBucket` | src/mr/worker.go:141-185 | in every run a reduce task that was handed out can open every file it is given; with nReduce <= 10 or at most 11 files it reads exactly its bucket of everything |
| `MapReduceRuns.MovesInv` | src/mr/worker.go:63-216 | each step of the coordinator and of workers writing and reporting keeps files and reports truthful on every graph, and output files too when names do not collide |
| `MapReduceRuns.DoneMeansDone` | src/mr/coordinator.go:31-64 | in every run, once the final job is handed out, every output file is there; with nReduce <= 10 or at most 11 files, and a reduce function that ignores the order of values, together they hold the sequential program's lines |
| `MapReduceRuns.SequentialAgrees` | src/main/mrsequential.go:38-84 | the same, under the same conditions, beside the sequential program itself |
| `LostPairs.PairsLost` | src/mr/coordinator.go:121-131 | from 12 files and 11 reduce tasks on, a run in which every worker reports on its buckets in order reaches the final job with output files that do not hold the sequential program's lines |
| `LostPairs.LinesIff` | src/mr/coordinator.go:31-64 | all finished runs of all applications whose reduce function ignores order leave the sequential program's lines if and only if nReduce <= 10 or there are at most 11 files |
| `JobIds.RoundTrip` | src/mr/coordinator.go:54-57 | reading a job's decimal key gives its number back |
| `JobIds.PairKeysDistinctIff` | src/mr/coordinator.go:121-131 | keys of two adjoining decimals are distinct if and only if nReduce <= 10 or there are at most 11 files |
| `JobIds.Collision` | src/mr/coordinator.go:126 | (11, 0) and (1, 10) share a key |
| `JobSafety.SameId` | src/mr/jobqueue.go:31-34 | with distinct pair keys, equal ids mean the same job, across all job types |
| `JobSafety.OwnId` | src/mr/jobqueue.go:31-34 | on every graph an id of a map, reduce or final job is that job's alone |
| `JobSafety.SoundIsSafe` | src/mr/coordinator.go:45-53 | with distinct pair keys, names reported under the right key were reported by the right map task |
| `JobSafety.NextInv` | src/mr/jobqueue.go:62-115 | each step of scheduling, storing, taking, retrying, reporting and finishing keeps the coordinator's invariant, on every graph |
| `JobSafety.DependenciesRespected` | src/mr/coordinator.go:31-64 | with nReduce <= 10 or at most 11 files, in every run a reduce task carries names reported by each map task for it, and the final job follows reports of all reduce tasks |
| `JobSafety.ReduceReadsItsBuckets` | src/mr/coordinator.go:50-53 | on every graph its m-th name is empty or the file of a pair with the same key, whose map task was handed out earlier; with nReduce <= 10 or at most 11 files that pair is its own |
| `JobSafety.DoneComesLast` | src/mr/coordinator.go:112-117 | on every graph the final job is handed out after every reduce task was handed out and has reported |
| `JobSafety.DependenciesBroken` | src/mr/coordinator.go:121-131 | from 12 files and 11 reduce tasks on, some run hands out reduce task 0 although map task 11 never reported to it |
| `JobSafety.DependenciesIff` | src/mr/coordinator.go:31-64 | every run respects the dependencies if and only if nReduce <= 10 or there are at most 11 files |
| `JobConservation.NextHeld` | src/mr/jobqueue.go:37-115 | no step loses a map, reduce or final job that is still owed |
| `JobConservation.NothingLost` | src/mr/coordinator.go:31-75 | in every run, until the coordinator stops, each such job that is not done waits, is in the channel or is watched; the final job is handed out once at most |
| `JobConservation.RetryWaits` | src/mr/jobqueue.go:37-46 | after a timeout the job waits again, and so do all that did |
| `JobConservation.NextPlaces` | src/mr/jobqueue.go:62-115 | a step moves a job from one place to the next, unless it is retried or overwritten by a job of the same id |
| `JobConservation.PseudoPlaces` | src/mr/coordinator.go:121-131 | in every run an intermediate job is submitted, being entered, running or done, in exactly one of these places, unless another of its id has taken its place |
| `JobConservation.PseudoOwedIff` | src/mr/coordinator.go:121-131 | in every run every intermediate job that is not done is submitted, being entered or running, if and only if nReduce <= 10 or there are at most 11 files |
| `JobConservation.Overwritten` | src/mr/coordinator.go:121-131 | a run that loses one, for every larger graph |
| `JobConservation.NeverStops` | src/mr/jobqueue.go:100-115 | without a retry the coordinator never closes a channel twice, however often workers report, and each map, reduce and final job is in exactly one place |
| `JobConservation.RetryMayStop` | src/mr/coordinator.go:66-75 | on every graph a run with a single retry stops the coordinator |
| `JobQueue.Coordinator.Make` | src/mr/coordinator.go:207-226 | a new coordinator is in the initial state of the state machine |
| `JobQueue.Coordinator.Initialize` | src/mr/coordinator.go:88-118 | submits the map jobs, each reduce task's intermediate jobs, the reduce jobs and the final job |
| `JobQueue.Coordinator.IntermediateTasks` | src/mr/coordinator.go:121-131 | the intermediate jobs of a reduce task, in order of the files |
| `JobQueue.Coordinator.Enqueue` | src/mr/jobqueue.go:68-82 | a job enters the channel, at its back, if and only if its dependencies are closed and fewer than 1000 jobs are in it |
| `JobQueue.Coordinator.Store` | src/mr/jobqueue.go:83 | afterwards it is entered under its id |
| `JobQueue.Coordinator.GetTask` | src/mr/coordinator.go:31-64 | pseudo jobs are dropped and the first other job is handed out with its files, never a pseudo job; the final job twice stops |
| `JobQueue.GetTaskInv` | src/mr/coordinator.go:31-64 | being made of single steps, handing out keeps the coordinator's invariant, on every graph |
| `JobQueue.GetTaskTakesFirst` | src/mr/coordinator.go:31-64 | the first job in the channel that is not an intermediate one is handed out with its files and watched, those before it are dropped, those behind it stay in order |
| `JobQueue.Coordinator.Retry` | src/mr/jobqueue.go:37-46 | the job is submitted again: it waits, and is watched once less |
| `JobQueue.Coordinator.Finish` | src/mr/jobqueue.go:100-115 | the first report of a running job sets its output and closes it; later ones find nothing; a second close stops |

## Left out

- Streams of events in which some operation has not returned or repeats an id: the checker expects complete ones.
- Histories without operations for the key/value model: there is then no group, so that the check returns only when a timeout fires; entry points without a timeout require an operation.
- checkParallel without partitions and without a timeout: it waits forever, so it is required to have one or the other.
- A data path without reduce tasks: the hash modulo zero panics on the first pair, so at least one is required.
- Operations that return before their call: `MakeEntries` covers them (the history is then not well-formed); the checks from there on require times in order, as the checker does.
- Models whose equality is not an equivalence that steps respect: the checker demands this of a model.
- Choosing distinct partial linearizations for the visualization, and the visualization itself.
- Machine words of a bitset are sequences of 64 digits rather than a 64-bit integer type.
- The sorts of Go's library are modelled by their contract, a sorted permutation.
- The kill flag, timeouts and the arrival order of results are parameters, quantified over.
- Install-snapshot requests with data, and appends that start below a follower's snapshot: such runs are not modelled and nothing is claimed of them.
- Duplicate delivery of vote requests: the network layer executes a request at most once (`src/labrpc/labrpc.go`), and the model relies on it for votes only.
- Liveness, timers, election timeouts and channel blocking in Raft: what is proved is that steps are taken exactly when they must be, and that runs exist in which commands reach all servers, not that every fair run is one.
- CommandsReachAll: for sequences of up to 2^63 - 1 commands, the largest index the code can hold.
- Commands are strings; encoding with labgob or JSON is taken as faithful; RPC transport, sockets and files are not modelled.
- ReportMapFailure: the jobs it submits carry neither dependencies nor a Done channel.
- Partly written output files when a reduce task runs twice at once, and input files that bear the name of an intermediate file: files are written whole and inputs do not change.
- FNV-1a: the hash is any deterministic non-negative function.
- The kvraft, shardctrler and shardkv servers, which are stubs, and the applications under mrapps.
