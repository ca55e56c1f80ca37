# A verified model of the replicated lock manager

The program is a lock manager for a small set of files, written in C and
replicated over five servers with Raft (Ongaro and Ousterhout, "In Search of an
Understandable Consensus Algorithm"). A client takes a lock, appends text to
files in a transaction, and releases the lock when the transaction is committed
on a majority. This project models its four difficult parts in Dafny and proves
properties of them that hold for all inputs, all interleavings and all runs.
`dafny verify dfyconfig.toml` checks everything.

**The Raft cluster.** `ServerSpec` gives every handler of a server as a function
from state to state; every handler of the program runs under one lock, so each
is one atomic step. `RaftServer` is the imperative code, with array slots,
`startIndex`, `logCount` and the loops for commit, scan and shift, proved to
compute those functions. `HandlerLaws` says what each of them does by absolute
position in the log, for a window with any start, and `CompactionLaws` that a
server which compacts its log answers and sends as one which does not. `Cluster` puts five servers, their disks and a network
that loses, delays, reorders and duplicates datagrams into one step system, with
history variables for votes, tenures and stored prefixes. The theorems are about
all its runs: `Elections`, `LogMatching`, `LeaderCompleteness`, `Replication`,
`StateMachineSafety`, `SortedTerms`, `CommitIndex`, `Openings`. The network hypotheses that
they need are flags of `Cluster.Delivery`; `Duplicates` and `Acknowledgements`
show by concrete runs, written down with the steps of `Scenes`, that each is
needed, so the two counting theorems are if-and-only-if.

**Snapshots and files.** `Files` defines what transactions do to a directory.
`Storage` is one server's memory, files and disk as a step system in which a
compaction interleaves with appends and commits, and a crash can come between
any two effects; `Leftovers` is a run in which a directory that a crash has left
spoils a snapshot. `Install` is the receiving end of a snapshot stream, `Streaming`
the sending end, `StreamEnds` what the one makes of the answers of the other, `Chunks` the splitting and reassembly, and `StorageManager` the
loops of raft_storage_manager.c. `HandlerSteps` shows that the handlers of
`ServerSpec` are steps of `Storage`, and `ClusterFiles` that in every run of the
cluster the appends a server accepts meet the hypotheses of those steps, unless
they are late copies. `RunFiles` joins both: it gives the main files of every
server along every run of the cluster, and says exactly when they are the replay
of what the server has committed; `LateCopies` has two runs in which they are not.

**The timed lock.** `TimedLock` interleaves the atomic actions of any number of
clients and of the timer thread.

**The client session.** `Session` merges the appends of a transaction,
`Requests` and `ClientRpc` answer repeated packets once, `Verdict` and `Finality`
decide whether a transaction is committed or lost, `LostVerdicts` is a run in
which a committed one is reported as lost, and `OwnVerdicts` says when one that is
reported as committed is the client's own. `Exchange` puts a client and a leader
together.

Where the code does not meet a property, the code is kept as it is and the
model says exactly when it does: `Duplicates.ElectionSafeIff`,
`Acknowledgements.CountersSoundIff`, `CommitIndex.AppendKeepsInsideIff`,
`CommitIndex.CommitGoesBackIff`, `RunFiles.FilesRightIff`,
`Verdict.LostThoughCommittedIff`, `OwnVerdicts.ReleaseIsOwnIff`,
`Storage.SnapshotsCompleteIff`,
`Install.LateRequestsSpoilIff`, `Chunks.SplitReassemble`,
`Requests.AtMostOnceIffGrouped`, `Streaming.StreamsSafeIff` and
`TimedLock.LostWhileOpeningIff`. Some of these
contradict the program's own documentation. README.md:112-120 promises that a
transaction reported as lost is never applied, which fails for a transaction that
a compaction has dropped from the window, and that one reported as committed is
committed, which fails if the term opened with an entry that kept the same id from
its slot: a conflict shortens the log and leaves the old entries in their slots
(raft_follower.c:51-52), and after a restart ids are given out from 1 again
(server.c:34). tmdspinlock.h:34-36 describes every access to the protected table as
paused, which handle_lock_acquire does not do.

## Model

| member | source | states |
|---|---|---|
| `Elections.ElectionSafety` | raft_candidate.c:68-116 | over every run, with compaction, installs and crashes, no two servers lead in one term, at the same or at different moments, if vote replies are not delivered twice |
| `Duplicates.ElectionSafeIff` | raft_candidate.c:105-116 | one leader per term on all runs if and only if no vote reply is delivered twice |
| `Duplicates.TwoLeaders` | raft_candidate.c:109-113 | a run in which two servers lead term 1, each with one voter counted twice |
| `Elections.WonTermIsNew` | raft_candidate.c:105-116 | a term that is being won has no winner yet, because two majorities of recorded votes meet |
| `LogMatching.LogMatchingHolds` | raft_follower.c:37-56 | two logs with the same term at the same position are identical up to it, in every state of every run without compaction or install in which no vote reply is delivered twice |
| `LogMatching.CheckMeansAgreement` | raft_follower.c:37-39 | a log that passes the consistency check agrees with the leader's log up to the checked position |
| `LeaderCompleteness.ChosenStays` | raft_candidate.c:85-98 | what a majority has stored in its own term is in the log of every later leader |
| `StateMachineSafety.StateMachineSafetyHolds` | raft_leader.c:158-173 | whatever two servers have committed, at the same or at different moments, is the same entry by entry |
| `StateMachineSafety.LeaderCompletenessHolds` | raft_candidate.c:85-98 | every committed position was certified by a majority that stored an entry at or after it in some term, and every leader of a later term, at any moment, holds the same entries up to it |
| `StateMachineSafety.CommitInsideLog` | raft_follower.c:42-59 | the commit index points into the log, and no heartbeat commits past its own position |
| `StateMachineSafety.CommittedStaysSafe` | raft_leader.c:158-173 | what is committed at one moment is chosen by a majority at every later one |
| `Replication.ReplicationCountSound` | raft_leader.c:158-173 | the counter of a leader's entry of its own term is at most the number of distinct servers that stored it |
| `Replication.RefusalMeansProbing` | raft_leader.c:158-160 | a refusal that a leader takes comes before the first success of that follower, so next_index never goes back past an acknowledged entry |
| `Acknowledgements.CountersSoundIff` | raft_leader.c:158-173 | if no vote reply is delivered twice, the counter is sound on all runs if and only if a leader takes neither the reply to a heartbeat nor one of an earlier tenure for the answer to its last append |
| `Acknowledgements.BlindAckOvercounts` | raft_leader.c:161-168 | a run in which the reply to a heartbeat is counted for an entry that only the leader has |
| `Acknowledgements.StaleReplyOvercounts` | raft_follower.c:33-35 | a run in which the refusal of a request of an earlier tenure makes the leader count one server twice |
| `SortedTerms.SortedTermsHold` | raft_follower.c:25-56 | in every run whatsoever, windows are sorted by term within the current term, and so is every append on the network |
| `CommitIndex.AppendKeepsInsideIff` | raft_follower.c:42-59 | for a window with any start, the exact condition under which an accepted append keeps the commit index inside it |
| `CommitIndex.OthersKeepInside` | raft.c:133-202 | elections, votes, replies, client appends, compaction, install and restart keep the commit index inside the window |
| `CommitIndex.CommitGoesBackIff` | raft_follower.c:57-59 | the commit index goes back exactly for an entry before it whose request says that more is committed |
| `CommitIndex.LateCopyCommitsTwice` | raft_follower.c:41-61 | a late copy takes the commit index back to its own position, and any later append or heartbeat that brings it back commits the entries in between again |
| `CommitIndex.LateCopyHarmlessIff` | raft_follower.c:41-61 | for a window with any start: when a late copy and a later append or heartbeat take the commit index back and forth, the files are those of the committed window again exactly if the entries committed twice write nothing |
| `RunFiles.FilesRightIff` | raft.c:51-79 | in every run without compaction or install, with restarts and crashes, and for any set of file names: the main files are at every moment the in-order, exactly-once replay of what the server has committed, if and only if the files that it does not clean (all but file_0 to file_99) were empty at its first start, it never accepts an append for a position that it has committed past, which says that more is committed, with a writing entry in between, and it never restarts with a committed write to a file that it does not clean |
| `RunFiles.FilesFollowLog` | raft.c:125-131 | as long as the commit index of a server does not go back, its files file_0 to file_99 are the replay of what it has committed, whatever restarts there are |
| `RunFiles.BackIffLateCopy` | raft_follower.c:57-59 | over every such run the commit index goes back exactly by such an append, and then to the position of its entry |
| `RunFiles.FilesAreApplied` | raft.c:125-131 | at every moment of such a run the main files are what the listed entries, applied one after the other since the last restart, make of the cleaned files; the list goes with that of the positions that are counted, and for a committed position it has the entry that the log holds there |
| `RunFiles.AppliedOnceIff` | raft.c:125-131 | in every run without compaction or install, a committed entry has been applied exactly once since the last restart if and only if no late copy of an append has taken the commit index back behind it |
| `LateCopies.LateCopyAppliesTwice` | raft_follower.c:57-59 | a run, with any delivery, in which a retransmitted append that comes late makes a follower apply a transaction twice |
| `LateCopies.LateCopyMakesFilesWrong` | raft.c:125-131 | in that run file_0 to file_99 are not always the replay of what the follower has committed |
| `LateCopies.RestartMakesFilesWrong` | raft_storage_manager.c:58-66 | a run in which a server restarts that has committed a write to notes.txt, and that file is then not what has been committed |
| `RaftServer.RaftState.constructor` | raft.c:19-49 | the fields represent the initial server, and every managed main file is empty; the removal of old snapshots is `StorageManager.FileStore.SweepSnapshots` |
| `RaftServer.RepresentsOne` | raft.h:54-91 | the fields and slots determine the server that they represent, so each of the contracts below fixes the whole new state |
| `RaftServer.RaftState.Recover` | raft.c:51-79 | the fields represent the restored server, and the committed window is replayed on the copied snapshot |
| `RaftServer.RaftState.GetLogTerm` | raft_utils.c:30-35 | the term of an absolute position, -1 outside the window |
| `RaftServer.RaftState.AttemptToElect` | raft_candidate.c:10-25 | computes the election step and the request that goes out |
| `RaftServer.RaftState.OnVoteRequest` | raft_candidate.c:68-103 | computes the vote step and its reply |
| `RaftServer.RaftState.BecomeFollower` | raft_follower.c:6-18 | computes the change to a newer term |
| `RaftServer.RaftState.OnAppendRequest` | raft_follower.c:20-70 | computes the append step and its reply, and applies to the files exactly the entries between the old and the new commit index |
| `RaftServer.RaftState.StoreEntry` | raft_follower.c:50-56 | overwrites or appends one slot; a conflict drops the tail |
| `RaftServer.RaftState.CommitUpdate` | raft.c:125-131 | sets the commit index, and applies the entries after the old one in order and once each |
| `RaftServer.RaftState.AppendRequestFor` | raft_leader.c:72-95 | computes the request for a follower, entry or heartbeat |
| `RaftServer.RaftState.BecomeLeader` | raft_leader.c:121-145 | computes the start of a tenure, with the stale id and data of the slot it takes |
| `RaftServer.RaftState.OnAppendReply` | raft_leader.c:158-173 | computes the count, the commit and the next position |
| `RaftServer.RaftState.OnVoteReply` | raft_candidate.c:105-116 | counts a vote, and says whether it wins |
| `RaftServer.RaftState.OnReply` | raft.c:177-203 | computes the reply step in all its cases |
| `RaftServer.RaftState.Append` | raft.c:106-122 | appends a client entry exactly if the server leads and has room |
| `RaftServer.RaftState.IsEntryCommitted` | raft.c:88-104 | the scan returns the verdict that `Verdict` is about |
| `RaftServer.RaftState.BeginSnapshot` | raft.c:133-140 | a compaction begins exactly if none is in progress, no follower is being sent a snapshot, and all it covers is committed |
| `RaftServer.ShiftLeft` | raft.c:161-163 | the in-place shift leaves exactly the slots that were there |
| `RaftServer.RaftState.EndSnapshot` | raft.c:159-164 | computes the shifted window |
| `RaftServer.RaftState.OnInstallRequest` | raft_follower.c:72-120 | computes the install step and its reply |
| `HandlerLaws.VoteLaw` | raft_candidate.c:68-103 | a vote is granted, with 1, and recorded if and only if the request is of the voter's term, it has not voted in it, and (term, index) of the candidate's last entry is not before its own; -1 exactly if only the last fails; nothing else changes but what a newer term changes |
| `HandlerLaws.CandidacyLaw` | raft_candidate.c:10-25 | a candidate begins a new term with its own vote and asks with its last entry |
| `HandlerLaws.CandidacyGrantedIff` | raft_candidate.c:85-98 | a server that has not seen the new term votes for a candidate if and only if the candidate's last entry is not before its own |
| `HandlerLaws.OneOfTwoIsGranted` | raft_candidate.c:85-98 | of two servers in one term, one can always win the vote of the other |
| `HandlerLaws.AppendRequestLaw` | raft_follower.c:20-70 | which requests are answered 1, which position is written and which entries are dropped, and that nothing else changes |
| `HandlerLaws.AppendCommitLaw` | raft_follower.c:45-59 | when the commit index changes, and to what |
| `HandlerLaws.RequestLaw` | raft_leader.c:72-95 | a request is about the position next_index, describes the entry before it, and carries the entry there exactly if there is one |
| `HandlerLaws.RequestHandled` | raft_follower.c:37-61 | a request and its handling together: the follower takes the leader's entry over, and keeps all before it, if and only if both hold an entry of the same term before it |
| `HandlerLaws.CountLaw` | raft_leader.c:161-167 | for any window: the counter of a position goes up by one if and only if it is acknowledged, above the commit index and of the leader's term, and no other changes; the commit index becomes that position if and only if its counter went up and is more than half of the servers |
| `HandlerLaws.PlaceLaw` | raft_leader.c:158-173 | where the place of the follower goes, that its next request has a new number, and that nothing changes for other followers |
| `HandlerLaws.OtherTermLaw` | raft.c:180-188 | a reply of another term changes only what a newer term changes |
| `HandlerLaws.BallotLaw` | raft_candidate.c:105-116 | a candidate counts votes and refusals, and leads exactly with more than half of the servers, with one more entry, which takes the rest of its slot over, and the place of every follower right after it |
| `HandlerLaws.LeaderReplyLaw` | raft.c:191-203 | a leader acts on the answer to its outstanding request only |
| `HandlerLaws.ClientLaw` | raft.c:106-122 | an entry is appended, with the leader's term and one copy, exactly by a leader with room |
| `HandlerLaws.RestartLaw` | raft.c:51-79 | what a restart loses, and that it loses nothing else |
| `HandlerLaws.RestartKeepsVotes` | raft.c:51-79 | a restarted server answers every vote request as it would have |
| `HandlerLaws.RestartKeepsAppends` | raft.c:51-79 | and every append request, with the same log, counters and commit index after it |
| `HandlerLaws.ShiftLaw` | raft.c:159-164 | the end of a compaction moves entries and counters together: at every position that is left both are as before |
| `HandlerLaws.InstallLaw` | raft_follower.c:72-120 | a snapshot request is answered 1 exactly if it is the one that is awaited, with its number and the follower's term; otherwise only a newer term changes anything |
| `CompactionLaws.CompactionUnseen` | raft.c:159-164 | over any history of one server, with compactions at any moments, the server is the one that does not compact with a shorter window, and sends the same, as long as what reaches it is about positions that it holds |
| `CompactionLaws.RequestSameIff` | raft_leader.c:80-91 | a request is the same after a compaction exactly if the position before it is still in the window |
| `CompactionLaws.CompactionKeepsCounts` | raft.c:161-163 | if no counter exceeds the followers that have confirmed its position, and the leader, so it is after the end of a compaction |
| `CompactionLaws.AnswerKeepsCounts` | raft_leader.c:158-173 | so it is, for a window with any start, after an answer, if a refusal comes only before the first success |
| `Storage.StepKeeps` | raft.c:133-174 | no step reads a missing slot or directory, and every step keeps the windows, the progress of the compaction and the snapshot of each window in existence |
| `Storage.CompactionInvisible` | raft.c:133-174 | after any run, every position in the window, the log length and the commit index are as in the run without its compactions |
| `Storage.SnapshotsCompleteIff` | raft.c:142-165 | over every run, every window in memory and on disk begins at every moment with a complete snapshot, if and only if no compaction runs to its end that began with text, in a directory of its id, in a managed file that its base lacks |
| `Storage.FindsTextOnlyFar` | raft.c:81-84 | over every run each directory below position 100 is the snapshot of a window, about to be removed or being built, so a compaction finds such text only at a position of at least 100 |
| `Leftovers.LeftoverSpoils` | raft.c:142-157 | a run, with the program's own window sizes, in which a crash cuts a compaction to position 100 short and the next one to it makes a snapshot with the text twice |
| `Storage.FilesAgree` | raft.c:125-131 | after any run that no such compaction disturbs, the main files read as the in-order, exactly-once replay of all committed transactions |
| `Storage.CrashConsistent` | raft.c:142-171 | in such a run, from a crash between any two effects, the saved start names a complete snapshot and restart rebuilds the files of the saved commit index |
| `Storage.ShiftInvisible` | raft.c:161-164 | every absolute position of the new window reads as before the shift |
| `HandlerSteps.AppendIsSteps` | raft_follower.c:37-61 | what an append in order does to log, commit index and files is a store, a commit, both or neither, as the file theorems have them |
| `HandlerSteps.ReplyIsSteps` | raft_leader.c:158-173 | the same for a reply: the entry that opens a tenure is stored, or the commit index goes up |
| `HandlerSteps.ClientIsStep` | raft.c:106-122 | the same for a client append |
| `HandlerSteps.SnapshotIsStep` | raft.c:159-164 | the end of a compaction is the shift of the window |
| `ClusterFiles.DeliveredInOrder` | raft_follower.c:37-61 | in every run without compaction or install, an accepted append brings the entry the server holds or conflicts above its commit index, and commits inside its log, unless it makes the commit index go back |
| `Files.LeftoverHarmless` | raft.c:142-157 | a snapshot built into a directory that already exists is right exactly if no file that the base lacks has leftover text |
| `Files.CopyOverPrefix` | raft_storage_manager.c:68-89 | copying a snapshot over files built from a prefix of it gives the snapshot, although files that it lacks are not truncated |
| `Files.CopyLaw` | raft_storage_manager.c:68-89 | after a copy every managed file of the source is in the target, and all other files of the target are as they were |
| `Files.CleanLaw` | raft_storage_manager.c:58-66 | after cleaning every managed file exists and is empty, and all others are as they were |
| `Install.StagingHolds` | raft_follower.c:88-118 | under loss, duplication and reordering, until `done` is accepted the staging directory is the concatenation of chunks 0 to install_snapshot_index |
| `Install.DoneMeansAllStaged` | raft_follower.c:90-95 | `done` is accepted only when all chunks are staged, and the staged directory then equals the leader's |
| `Install.InstallStream` | raft_follower.c:95-110 | the first accepted `done` leaves the follower at the snapshot, with the leader's directory and main files |
| `Install.InstallTidies` | raft_follower.c:97-129 | the accepted `done` removes the snapshot that the window began with, and no other directory |
| `Install.AnswersTellTheTruth` | raft_follower.c:90-119 | up to the first accepted `done`, a `done` is answered 1 if and only if the snapshot is then installed, and a chunk if and only if it has just been staged; a request that is answered 0 changes only what its term changes |
| `StreamEnds.DoneAnswerDecides` | raft_leader.c:53-66 | the answer to the outstanding `done` lets the sender finish if and only if the follower was waiting for it |
| `StreamEnds.LateReplyHasTheLastWord` | raft.c:191 | a late reply of the same term that comes before the sender looks decides instead: the sender finishes if and only if that reply does not say 0 |
| `StreamEnds.StreamEndsOnlyWhenTold` | raft_leader.c:59-66 | over every run, a leader finishes a stream only after a reply of that follower in its term that does not say 0, or after winning an election |
| `Install.LateRequestsSpoilIff` | raft_follower.c:72-129 | over every run of late requests, chunks of other streams, newer terms, restarts and other handlers after the first `done`: the live snapshot stays the leader's at every moment if and only if no first chunk is accepted again that has text, or that is followed, before a restart, by a later chunk with text, by `done`, or by a newer term |
| `Install.ReopenedIff` | raft_follower.c:111-115 | the stream is under way again exactly if its first chunk has been accepted again and no newer term, restart or `done` has come since |
| `Install.EverySnapshotCanBeLost` | raft_follower.c:13-17 | for every snapshot with a file there is such a run of two steps: its first chunk comes again, and then a newer term |
| `Chunks.SplitReassemble` | raft_storage_manager.c:91-134 | feeding the chunks of a directory to Raft_add_to_snapshot rebuilds it, empty files included, exactly if no file holds a NUL |
| `Chunks.DirChunkCount` | raft_storage_manager.c:114-134 | the number of chunks is the sum of length / 1024 + 1 |
| `StorageManager.ChunksOf` | raft_leader.c:31-47 | the iterator ends after exactly those chunks, in order |
| `StorageManager.SnapshotIterator.GetNext` | raft_storage_manager.c:114-134 | returns the first remaining chunk and leaves the rest, or 0 exactly if none remains |
| `StorageManager.FileStore.CopySnapshot` | raft_storage_manager.c:68-89 | the managed files of the source replace those of the target, all others stay |
| `StorageManager.FileStore.CopyFiles` | raft_storage_manager.c:74-88 | the loop over the hundred names computes the copy |
| `StorageManager.FileStore.CleanFiles` | raft_storage_manager.c:61-65 | afterwards every managed file exists and is empty |
| `StorageManager.FileStore.CleanMainFiles` | raft_storage_manager.c:58-66 | the same for the directory of the main files; no snapshot directory changes |
| `StorageManager.FileStore.RemoveSnapshot` | raft_storage_manager.c:46-56 | the directory goes exactly if it held managed files only |
| `StorageManager.FileStore.SweepSnapshots` | raft.c:81-84 | all directories with ids below 100 are removed so, but for the one that is kept; the others stay |
| `StorageManager.SweepLaw` | raft.c:81-84 | which directories are left alone, which go, and which keep their unmanaged files |
| `StorageManager.FileStore.AddToSnapshot` | raft_storage_manager.c:91-104 | the text up to the first NUL is appended to one file, which is created if need be |
| `Streaming.StreamingExcludesCompaction` | raft_leader.c:11-17 | in a tenure, n_followers_receiving_snapshots is the number of active senders, and zero while a snapshot is created |
| `Streaming.StreamIsOfOneSnapshot` | raft_leader.c:19-66 | from the first chunk to `done` the snapshot id and its directory do not change |
| `Streaming.LeftoverSenderSpoils` | raft_leader.c:121-124 | from every start of a tenure with a sender left streaming there is a run in which a snapshot is replaced and removed while a new stream sends it |
| `Streaming.StreamsSafeIff` | raft_leader.c:8-70 | all streams of a tenure, in all its runs, stay on one unchanged snapshot if and only if no sender is left streaming when the tenure begins; one that still waits does no harm |
| `TimedLock.TimerCountExact` | timer.c:34-51 | timer.state is one for an armed holder less the outstanding pauses, in every interleaving |
| `TimedLock.AtMostOneOwner` | tmdspinlock.c:27-46 | mutual exclusion, also while the holder is being set or cleared and while the timer takes the lock back |
| `TimedLock.FlagFreeIffUnowned` | tmdspinlock.c:32-44 | the flag is free if and only if nobody owns the lock |
| `TimedLock.PauseGuards` | tmdspinlock.h:26-37 | after a successful pause the client holds the lock, the timer cannot fire, and no other client is past a pause |
| `TimedLock.NoExpiryOfFreeLock` | tmdspinlock.c:48-54 | the timer does not fire for a free lock, and the assertion of its handler holds |
| `TimedLock.HolderChanges` | tmdspinlock.h:15-19 | a client sets the holder only to itself and only when it is free, and clears only itself; the timer clears it only while nobody pauses |
| `TimedLock.SecondChecksSucceed` | tmdspinlock.c:19-44 | the owner check of a reset, and the swap that frees the flag, never fail |
| `TimedLock.LostWhileOpeningIff` | server.c:27-38 | in every run a client that is about to clear the transaction table no longer holds the lock if and only if the timer has taken it back from that client since it came there |
| `TimedLock.TogetherOnlyAfterExpiry` | server.c:27-38 | two clients are at the table together only after such an expiry of the lock of one of them |
| `TimedLock.ExpiredOpeningOverlaps` | server.c:27-38 | after every such expiry the run can go on until another client writes to the table that the first has still to clear |
| `TimedLock.OpeningOverlaps` | server.c:27-38 | there is such a run from the start |
| `Session.MergingPreservesMeaning` | server.c:71-99 | for every sequence of appends, committing the merged table does to any files what the accepted appends do one by one, and the table is gap-free with distinct names |
| `Session.RejectedIffFull` | server.c:77-94 | an append is rejected exactly if ten other files have been written to, and then changes nothing |
| `Session.NamelessIsLost` | server.c:80-84 | an append without a name never changes what is committed |
| `Session.CommitTransaction` | server.c:101-116 | appends the slots up to the first empty name, in order |
| `Session.Transaction.HandleAppendFile` | server.c:71-99 | the search loop computes the merged table and the return code |
| `Session.Transaction.HandleLockAcquire` | server.c:27-38 | clears the table and numbers the transaction |
| `Requests.AtMostOnceIffGrouped` | server_rpc.c:83-99 | whatever arrives, no request of a client is handled twice if and only if none of its packets comes back after another one |
| `Requests.HandledAtMostOnce` | server_rpc.c:83-99 | with synchronous clients every request is handled at most once |
| `Requests.HandlersNeverOverlap` | server_rpc.c:83-127 | two handlers of one client are never in flight together |
| `Requests.FinalAnswersAgree` | server_rpc.c:83-127 | all final answers to a request, whenever sent, are the one result of its handler |
| `Requests.NewestAnswerIsTheResult` | client_rpc.c:36-44 | a client that takes an answer numbered at least as its newest request takes the one result of that request |
| `Requests.ArrivalIsAnswered` | server_rpc.c:83-107 | with synchronous clients a packet is answered with its result if its handler has returned, that it is in progress if its handler runs, and otherwise starts its handler |
| `Requests.LatePacketHandledTwice` | server_rpc.c:84-98 | a run in which an old packet that arrives late is handled again |
| `Requests.RequestTable.Receive` | server_rpc.c:44-99 | the first locked section computes the answer or starts the handler |
| `ClientRpc.Connection.SendPacket` | client_rpc.c:8-47 | returns the first read that answers this request; sends the same packet, in order, to exactly the servers that the timeouts and refusals lead to, and stays with the last of them |
| `ClientRpc.LeavesIff` | client_rpc.c:18-43 | a server is left exactly if it answers as a follower, or at the tenth timeout in a row and every tenth after it; if an answer came before the row it is the eleventh, because the packet after an answer is not counted |
| `ClientRpc.AttemptsCountTimeouts` | client_rpc.c:18-34 | what the counter of attempts is after any reads, in terms of the timeouts in a row |
| `ClientRpc.AimIsInTurn` | client_rpc.c:23-42 | after any reads the client addresses the server that is as many further, modulo the number of servers, as it has left |
| `ClientRpc.TargetsInTurn` | client_rpc.c:28-42 | the packet goes to the first server, and at every timeout or refusal to the one that is as many further as the client has left by then |
| `ClientRpc.EveryServerIsAsked` | client_rpc.c:25-40 | a client that has left four servers has asked all five |
| `ClientRpc.AnswerLaw` | client_rpc.c:36-44 | which answers end the wait, and which make the client send again |
| `Exchange.EndingReadIsResult` | client_rpc.c:36-44 | a read that ends the wait of send_packet, when it comes from what a leader has sent in a run with synchronous clients, is the one result of the newest request |
| `Exchange.ResultEnds` | client_rpc.c:36-44 | the result of the request, once it is read, ends the wait, unless its code is one of the three that mean something else |
| `Exchange.Call` | client_rpc.c:8-47 | send_packet on reads from such a run returns the one result of its own request, or an error of the socket |
| `Verdict.VerdictExact` | raft.c:88-104 | the scan returns 1 if and only if the entry is committed, and -1 if and only if no sorted log with that committed prefix can hold it |
| `Verdict.LostThoughCommittedIff` | raft.c:88-104 | after a compaction, a committed entry is reported as lost exactly if it lies below the window only and an entry of a later term is committed in the window |
| `Verdict.CommittedIffInWindow` | raft.c:88-104 | after a compaction, a committed entry is found so exactly if the window still holds it; if not, the verdict stays open exactly until an entry of a later term is committed |
| `LostVerdicts.CommittedReportedLost` | raft.c:88-104 | a run in which a server reports a transaction as committed and, after its compaction, as lost |
| `Openings.TermsOpenOnce` | raft_leader.c:125-130 | over every run without compaction or install, every term that has had a leader began with one leader's entry, and all its other entries are from clients |
| `Finality.VerdictByOpening` | raft.c:88-104 | what a committed verdict on (term, id) means at any moment of a run: if the term opened with another id, that a client's transaction is committed; if it opened with this id, that the opening entry is, whatever has become of the client's |
| `OwnVerdicts.ReleaseIsOwnIff` | server.c:55-63 | for terms that open with the id g, a release of transaction id that returns 0 has found a committed transaction of a client in all runs if and only if g is not id |
| `OwnVerdicts.AnswersForTheOpening` | raft_leader.c:126-130 | for every id, a run in which a leader reports its client's transaction as committed, has it in its log, and has not committed it |
| `Verdict.AwaitVerdict` | server.c:55-68 | the release returns 0 or E_LOST exactly with the first verdict that is not open |
| `Verdict.AwaitedMeans` | server.c:55-68 | it does not return exactly while all verdicts are open, and returns 0 or E_LOST only for a committed or lost verdict |
| `Verdict.AwaitedIsFirst` | server.c:55-68 | it is the first verdict that is not open which decides |
| `Finality.ReleaseIsFinal` | server.c:55-68 | if the release polls a server at any moments of a run and returns 0, no server ever finds the transaction lost, every server that has come as far finds it committed, and it is a client's if the term did not open with its id; if it returns E_LOST, no server ever has it committed |
| `Finality.CommittedIsFinal` | server.c:61-63 | a committed verdict is repeated by every server that has come as far, at any moment of the run |
| `Finality.LostIsFinal` | server.c:64-68 | after a lost verdict no server ever has the entry committed |

## Left out

- Sockets, timeouts, threads, `clock`, `rand`, `malloc`, process configuration and tracing: I/O and scheduling; any enabled step may come next.
- spinlock.c: taken as an atomic lock, so each handler is one step.
- Liveness of elections, streaming and retry: it depends on timing that the code does not control.
- Log matching, leader completeness and state-machine safety across compaction and installs: no last-included term is kept (raft_utils.c:30-33), so they are stated for runs without them; election safety and sorted terms are stated for all runs, and `CompactionLaws` for one server.
- The safety theorems assume what `Cluster.STRICT` says of the network, room in the log of a server that wins an election (raft_leader.c:126 has no check), and that an append is not for a position below the window, where the program faults (`ServerSpec.Storable`).
- `SortedTerms.SortedTermsHold`: `Cluster.Enabled` lets a compaction end only at a server whose window still covers it, so an install that completes inside a compaction of the same server, after which raft.c:161-164 would shift by the distance to a start that the install has replaced, is not a step.
- Server ids are 0 to 4 and the per-follower tables have five places; the program has eleven, of which five are used. In `RaftServer` these tables are sequences that the methods reassign.
- `Storage.Enabled` holds the hypotheses of the file theorems: committed entries do not change (see `ClusterFiles.DeliveredInOrder`), and the commit index does not go back (see `CommitIndex.CommitGoesBackIff`).
- `Install.Ready` asks that the follower has no directory of the snapshot's id, or one that the change of term removes.
- `Install.LateRequestsSpoilIff`: is about a follower while its window begins at the snapshot; a `done` of another stream and a compaction of its own end that. A leader of a later term is taken not to send the snapshot at which the follower already stands, since it accepts that leader's appends from there on.
- `RunFiles.FilesRightIff`: a handler is one step there, so a crash between applying an entry and saving the commit index is not in it; `Storage` has such crashes, for the managed files. A file name is taken to be that of a file of its own in the directory, not raft_state and no path into another directory.
- `Files.BUFFER_SIZE`: a full chunk is 1024 characters without a terminating NUL; the text is taken to end there, which the program's `%s` does not guarantee.
- `Session.Fits`: the text for one file is taken to stay within its buffer; strcpy and strcat do not check it.
- Log entries keep n_servers_replicated in an array of its own, because replicas may differ in it.
- `RaftServer.RaftState.constructor`: says nothing of the snapshot directories that Raft_server_init removes (raft.c:46), because the class holds the main files only; `StorageManager.FileStore.SweepSnapshots` is that loop.
- `RaftServer.RaftState.OnInstallRequest`: says nothing of the directories, which are in `Install`.
- The path of handle_lock_release that returns E_LOCK_EXP, which carries no verdict, and that a client maps to success (client_rpc.c:101).
- The slot that an opening entry takes over: `Cluster` lets it hold anything, so that every id can come back (see `OwnVerdicts.ReleaseIsOwnIff`).
- Distinct (term, id) pairs among the transactions of clients: `Verdict` speaks of any client's entry with the pair.
- A client that changes the leader in the middle of a request: `Exchange.Call` is about one leader and refusals of the others, because the table of requests is not replicated.
- Integers are unbounded; terms, indexes and request ids do not wrap around.
