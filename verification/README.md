# TurboRaft in Dafny

A model of TurboRaft, a C library for the Raft consensus protocol, with proofs
of what its parts promise.  `dafny verify dfyconfig.toml` checks everything.

The project has four layers.

**Consensus.**  `RaftNode` gives each transition of one core as a function and
`Cluster` joins any number of cores by a network that may lose, duplicate,
delay and reorder; every call into a core, compaction and restart is an event.
`ClusterInvariant` states an invariant over a growing history of elections,
votes and acknowledgements; `ClusterSteps`, `ClusterAppend`, `ClusterGrowth`,
`ClusterCalls`, `ClusterReceive` and `ClusterProgress` show that every event
keeps it.  `Safety` draws Election Safety, Log Matching and Leader Completeness
from it, for all runs of any length.  `Agreement` states exactly when a
follower's commit step is the one the Raft paper prescribes, and proves State
Machine Safety for nodes that took only such steps; `Divergence` builds a run of
the code's own steps in which it fails.  `LeaderCommit` shows what holds in every
run all the same: what a leader has committed, and every snapshot, is right.
`Pipeline` proves that match indices are true in every run and that the per-peer
windows of unacknowledged requests tile the log; `Untimely` builds a run in which
a repeated snapshot completion breaks a window.

Safety alone would hold of cores that refuse everything, so what they must answer
is stated too.  `Acceptance` says exactly which requests a follower takes and what
it answers, `Elections` which votes and pre-votes are granted, and that from every
reachable state a voter that is not behind a majority can be elected.  `CatchUp`
proves that every rejection moves the leader's probe back and every grant its
match index up, `CommitProgress` that a leader commits whatever a majority holds,
and `Replication` that from every reachable state followers can be brought up to
the leader's log and a proposal committed; `Stranded` builds a run that shows where
that ends.

`RaftCore`, `RaftLog` and `AppendWindow` hold the mutable core, log and ring
buffer: each method is proved to leave the state and the messages that the
transition functions give, so the cluster theorems are about them.

**Membership.**  `Membership`, `PeerSet` and `Configuration` hold the sorted
merges, quorum counts and the byte codec; `MembershipTransition` the machine of
pending configurations, with quorum intersection along every history, and
`MembershipChange` a whole change from one stable configuration to the next.

**Storage.**  `WalFormat`, `Wal`, `WalFiles` and `WalStorage`: the transaction
writer, the replay interpreter, segments, manifest range, snapshot payload files
and checkpoint compaction.  Whenever the disk replays at all it replays to
exactly what the writer believes is durable, every call says whether it still
does, and every byte-level crash point of a commit, a rotation or a checkpoint
recovers the state before or after it.  `WalMeaning` states what the operations
mean on the recovered log and that replay accepts nothing but a writer's bytes;
`WalRoundTrip` follows a transaction through commit and reopening.  `SnapshotLoss`
is a sequence of calls after which a log cannot be loaded.

**Delivery.**  `SnapshotTransfer`, `SnapshotObjects` and `TransferProgress`
(windowed chunks over a hostile channel, and that a transfer can always be
finished), `ApplyCore`, `SyncRuntime`, `ApplyRuntime` and `ApplyProgress` (committed
commands reach the state machine in order and once), `Service` (per-peer order
under back-pressure), `PausedPeers` (the core sends nothing to a paused peer) and
`ReadIndex` (conservation of read contexts).

Where the code and the protocol part ways, the model follows the code:

- a follower bounds its commit index by its own last index and not by the last
  entry the request covers (src/core/raft_core.c:1162-1169), so State Machine
  Safety of a node needs the condition `Agreement.Vouched` in that node's own
  calls, and `CommitDivergence` shows a run without it;
- a snapshot completion below the match index moves next below it
  (src/core/raft_core.c:2379-2383), so the tiling of windows needs
  `Pipeline.Timely`, and `UntimelyCompletion` shows a run without it;
- a rejection's hint is followed only downwards (src/core/raft_core.c:1338-1359), and
  the hint for a request below the follower's snapshot lies above its start, so a
  follower that compacts past the leader's probe is never matched again until the
  leader compacts too: `CatchUpPossible` asks that the probe starts at or above the
  follower's snapshot, and `BelowSnapshot` and `StrandedForever` show why;
- the membership merges use the largest 64-bit id as their end mark
  (src/core/raft_membership.c:186-234), so `JointThenFinal` and `JointOldVoters`
  hold exactly without that id;
- a pre-vote request clears a pre-candidate's own campaign term
  (src/core/raft_core.c:1031-1034);
- storing a snapshot removes the payload file of the one before it
  (src/storage/raft_wal_storage.c:2052-2063) also when the log goes on, and replay
  opens that file again (src/storage/raft_wal_storage.c:1417-1420), so the log can
  be loaded afterwards exactly when there was no earlier snapshot or no entry
  survives behind the new one, and `LostLog` shows calls after which it cannot;
- a snapshot that finds no room in the log leaves its transaction open
  (src/storage/raft_wal_storage.c:2004-2014), which only a rollback ends.

## Model

| member | source | states |
|---|---|---|
| `Safety.ElectionSafety` | src/core/raft_core.c:932-1099 | No term ever has two leaders, at any two points of any run with loss, duplication, reordering, compaction and restarts |
| `Safety.LeaderCompleteness` | src/core/raft_core.c:1206-1239 | An index that meets the leader commit rule in term T is held, with everything before it, by every leader of every later term, at any point of the run |
| `Safety.LogMatching` | src/core/raft_core.c:1101-1204 | Logs of any two nodes at any two points of a run that hold the same term at an index are equal up to that index |
| `Safety.LeaderAppendOnly` | src/core/raft_core.c:1958-2027 | While it leads one term, a leader's log only grows at the end |
| `Safety.VoteStability` | src/core/raft_core.c:1060-1077 | A vote cast in a term never changes in that term, across later elections and restarts |
| `Safety.NoContentConflict` | src/core/raft_log.c:341-369 | The same-term content check of reconcile never fires: an entry in flight and a log entry with equal index and term are the same entry |
| `Safety.ChosenSurvives` | src/core/raft_core.c:506-515 | Every later election winner holds each chosen prefix: strong induction over terms through the up-to-date check and intersecting majorities |
| `Safety.CommitRuleChooses` | src/core/raft_core.c:326-343 | An index that meets the leader's match-quorum rule really is held by a majority in that leader's term |
| `Safety.Histories` | src/core/raft_core.c:1825-1956 | Every run has a growing history of ballots, votes and acknowledgements under which the whole invariant holds in every state |
| `Safety.RunsExtend` | src/core/raft_core.c:1825-1956 | Any enabled event extends any run: no reachable state leaves a call undefined |
| `Agreement.CommitStepExact` | src/core/raft_core.c:1162-1190 | An accepted AppendEntries commits exactly what the Raft paper prescribes if and only if it changes the log, or the smaller of leader commit and last index stays within the request's last entry or the current commit index |
| `Agreement.StepCommitted` | src/core/raft_core.c:1101-1204 | A node whose own call is vouched keeps its committed prefix a prefix of something chosen, whatever the other nodes do |
| `Agreement.StateMachineSafety` | src/core/raft_core.c:561-589 | Whatever any two nodes have committed at any two points of any run is the same sequence of entries, provided each of the two met the vouching condition in its own calls |
| `Agreement.NeverBack` | src/core/raft_core.c:906-930 | Terms and commit indices never decrease over any run, vouched or not |
| `LeaderCommit.LeadersAgree` | src/core/raft_core.c:1206-1239 | In every run, with no condition at all, what nodes have committed while they lead is the same sequence at any two points |
| `LeaderCommit.BallotHolds` | src/core/raft_core.c:506-515 | The log of a term's leader holds everything chosen up to that term, so its committed prefix is right even when it was committed wrongly as a follower |
| `LeaderCommit.NextBacked` | src/core/raft_core.c:1679-2206 | Every event keeps commit indices within what some leader got chosen, and every snapshot in flight or reported installed a prefix of something chosen |
| `Divergence.CommitDivergence` | src/core/raft_core.c:1162-1169 | A concrete three-member run in which two nodes commit different entries at index 9: without the vouching condition State Machine Safety fails |
| `ClusterProgress.NextInv` | src/core/raft_core.c:1679-2206 | Every event of every core keeps the cluster invariant (elections, logs, votes, acknowledgements, messages in flight) and only extends the history |
| `ClusterInvariant.InitialInvariant` | src/core/raft_core.c:1448-1669 | The freshly created cluster satisfies the invariant |
| `ClusterCommit.FireAdvances` | src/core/raft_core.c:1206-1239 | Outside follower commits, a call moves a commit index only by the leader rule, and sends only its own commit index |
| `ClusterCommit.UpdateCommitRule` | src/core/raft_core.c:1206-1239 | The commit index a leader moves to is of its own term and matched by a majority |
| `ClusterGrowth.WinnerHoldsAcks` | src/core/raft_core.c:1060-1099 | A new leader holds everything its voters acknowledged to earlier leaders |
| `ClusterGrowth.ElectInv` | src/core/raft_core.c:932-959 | Recording a won election keeps the invariant |
| `ClusterGrowth.QuorumsMeet` | src/core/raft_core.c:304-324 | Two majorities of the voters share a voter |
| `ClusterReceive.VoteReqInv` | src/core/raft_core.c:1060-1077 | A vote request keeps the invariant, whether the vote is granted, repeated or refused |
| `ClusterReceive.VoteRespInv` | src/core/raft_core.c:1079-1099 | A vote response keeps the invariant, including the one that completes the majority |
| `ClusterReceive.PreVoteReqInv` | src/core/raft_core.c:1022-1035 | A pre-vote request keeps the invariant |
| `ClusterReceive.PreVoteRespInv` | src/core/raft_core.c:1037-1058 | A pre-vote response keeps the invariant, including the one that starts the election |
| `ClusterReceive.TimeoutNowInv` | src/core/raft_core.c:1373-1385 | A leadership hand-over request keeps the invariant |
| `ClusterReceive.AppendReqTakes` | src/core/raft_core.c:1101-1204 | An accepted AppendEntries leaves the follower with the leader's prefix through the last entry sent and drops nothing without a term conflict |
| `ClusterReceive.AppendReqInv` | src/core/raft_core.c:1101-1204 | Every AppendEntries, accepted, mismatching or stale, keeps the invariant and records what the follower now holds |
| `ClusterProgress.AppendRespInv` | src/core/raft_core.c:1288-1371 | Every AppendEntries response keeps the invariant |
| `ClusterProgress.SnapshotInv` | src/core/raft_core.c:1448-1669 | Restarting a core from a received snapshot keeps the invariant |
| `ClusterProgress.SnapshotAckInv` | src/core/raft_core.c:2347-2386 | A snapshot completion keeps the invariant at whatever index and time it arrives |
| `ClusterProgress.ProposeInv` | src/core/raft_core.c:1958-2027 | A proposal batch keeps the invariant |
| `ClusterProgress.TickInv` | src/core/raft_core.c:1679-1823 | A leader tick with any set of expired windows keeps the invariant |
| `ClusterProgress.TransferInv` | src/core/raft_core.c:2079-2128 | Starting a leadership transfer keeps the invariant |
| `ClusterCalls.StartElectionInv` | src/core/raft_core.c:961-978 | Standing for election keeps the invariant |
| `ClusterCalls.EmittedOK` | src/core/raft_core.c:677-749 | Everything a leader emits for a peer is a slice of its own log with the right predecessor term |
| `Cluster.NextKeepsOK` | src/core/raft_core.c:1679-2206 | Every event leaves every core in a state on which all calls are defined |
| `Pipeline.PipeliningSound` | src/core/raft_core.c:677-749 | In every run the match index of a peer in the leader's term names a prefix the peer holds; while the leader takes only completions at or above match, each window tiles up to next - 1 above the match index and a probing peer has at most one request |
| `Pipeline.Covered` | src/core/raft_core.c:109-162 | The requests of a tiled window cover exactly the indices from the first request's start to next - 1, and each ends above the match index |
| `Pipeline.CompletionExact` | src/core/raft_core.c:2347-2386 | A snapshot completion keeps a peer record sound if and only if it is at or above the match index |
| `Untimely.UntimelyCompletion` | src/core/raft_core.c:2379-2383 | A concrete run in which a repeated completion below the match index leaves a peer record unsound |
| `Pipeline.FirePiped` | src/core/raft_core.c:677-814 | Every call keeps every window of the core tiled, completions below the match index aside |
| `Pipeline.FireSource` | src/core/raft_core.c:1288-1371 | Every call takes a peer's match index only from that peer's acknowledgement in the leader's term or from a snapshot it reported |
| `Pipeline.AdvancedOK` | src/core/raft_core.c:1324-1337 | An accepted response releases exactly the requests at or below the new match index and leaves the rest tiled |
| `Pipeline.BackedOffOK` | src/core/raft_core.c:1338-1359 | A rejected response falls back into a probing record that is sound again |
| `Acceptance.AppendAnswer` | src/core/raft_core.c:1101-1204 | A request that is not stale is taken and granted exactly when its predecessor is held and its first conflict is uncommitted and it fits; the log then ends with its entries, the commit index is the larger of its own and what the leader has of the new log, and the answer names the last index; a missing predecessor is answered with the hint, anything else is dropped |
| `Acceptance.RequestGranted` | src/core/raft_core.c:1101-1204 | In every run a current request of a leader whose predecessor the follower holds and whose first conflict is uncommitted is granted with match prev plus its length: none of the content checks can refuse it |
| `Acceptance.StaleAnswer` | src/core/raft_core.c:1101-1118 | A request of a former term changes nothing and is refused with the follower's term and a hint just past its log |
| `Acceptance.MismatchHint` | src/core/raft_log.c:335-338 | The predecessor is missing exactly when it is below the base, past the log or of another term |
| `Acceptance.RunClean` | src/core/raft_log.c:313-405 | In every run every log and every request in flight is numbered without gaps and has non-zero terms and admissible data |
| `Acceptance.OtherCallsKeepLog` | src/core/raft_core.c:1679-2206 | No call but an AppendEntries, a proposal or a snapshot changes the log |
| `Elections.UpToDatePreorder` | src/core/raft_core.c:506-515 | Up to date is a total preorder on logs: reflexive, transitive, and of any two logs one passes the other |
| `Elections.ExtensionPasses` | src/core/raft_core.c:506-515 | A log that extends another, with terms that do not fall, is up to date against it |
| `Elections.QuorumExact` | src/core/raft_core.c:304-324 | A quorum is exactly more than half of the voters |
| `Elections.VoteAnswer` | src/core/raft_core.c:1060-1077 | A voter grants exactly the candidates of its term or a later one that are not behind it, unless it voted for another in that term, and otherwise refuses |
| `Elections.PreVoteAnswer` | src/core/raft_core.c:1022-1035 | A pre-vote is granted exactly to a candidate this voter, moved to the campaign term, would vote for; no term or vote changes |
| `Elections.ReadAnswer` | src/core/raft_core.c:1387-1402 | A read barrier is confirmed by exactly the voters that follow its sender in its term, with the sender's context |
| `Elections.ElectionPossible` | src/core/raft_core.c:932-1099 | From every reachable state a voter that is not behind a majority it can talk to, whose terms have not passed it, can be elected: some continuation of the run ends with it leading the next term, its log as it was |
| `Elections.TransferPossible` | src/core/raft_core.c:2079-2128 | From every reachable state a leader can hand over to a follower that holds its log: some continuation ends with that follower leading the next term |
| `CommitProgress.LeaderCommitsAll` | src/core/raft_core.c:1206-1239 | At every point of every run, an entry of the leader's own term that the match indices show at a majority is committed there |
| `CommitProgress.RunKept` | src/core/raft_core.c:1206-1239 | At every point of every run nothing of a leader's own term above its commit index is matched by a majority |
| `CommitProgress.RunOwn` | src/core/raft_core.c:932-959 | At every point of every run a leader counts itself for its whole log |
| `CatchUp.RejectionMoves` | src/core/raft_core.c:1338-1359 | A rejection of a request after prev above the match index leaves next between match + 1 and prev and not above a hint above the match; one that answers no request lowers next while it is above base + 1 and match + 1 |
| `CatchUp.RejectionsEnd` | src/core/raft_core.c:1338-1359 | However rejections are answered, each moves the probe back, and after as many as there are unmatched indices it is right behind the match |
| `CatchUp.EmitRecord` | src/core/raft_core.c:677-749 | What sending to a peer does to its record and puts into the network, in every case |
| `CatchUp.BroadcastReaches` | src/core/raft_core.c:751-766 | A broadcast does for every other peer exactly what sending to it alone does |
| `CatchUp.FillStops` | src/core/raft_core.c:801-814 | Filling a window goes on until the window is full, the log is sent or the room is used up, and never past any of the three |
| `CatchUp.AnswerFollowed` | src/core/raft_core.c:1360-1369 | Every answer the leader counts is followed up: a completed hand-over makes it ask the target to stand, a probe below its snapshot makes it send that, and any other refills the window as far as window, log and room go |
| `CatchUp.FollowerTurn` | src/core/raft_core.c:1101-1204 | In every run a request of the leader's present log that starts at or above the follower's snapshot is granted, and the follower then holds that log through its end, or its predecessor is missing and the hint lies between the snapshot and it |
| `CatchUp.GrantTurn` | src/core/raft_core.c:1324-1337 | A granted answer moves the match index to the request's end, releases exactly that request, ends the probing, and commits at most that far |
| `CatchUp.RefusalTurn` | src/core/raft_core.c:1338-1359 | A refused answer leaves the probe at the hint or right behind the match index, whichever is higher, and commits nothing |
| `CatchUp.Round` | src/core/raft_core.c:677-749 | One exchange with a follower in reach raises the match index or lowers the start of the probe |
| `Replication.CatchUpPossible` | src/core/raft_core.c:1288-1371 | From every reachable state in which the probe starts at or above the follower's snapshot, some continuation of the run ends with the follower holding the leader's whole log and the leader knowing it |
| `Replication.ExpiryRestarts` | src/core/raft_core.c:1750-1790 | Whatever was lost, an expired window starts over right behind the match index, from where the follower can be brought up unless either has compacted past it |
| `Replication.CommitPossible` | src/core/raft_core.c:1206-1239 | With a majority of followers that lag behind, some continuation ends with the leader's whole log committed |
| `Replication.ProposalPossible` | src/core/raft_core.c:1958-2027 | From every such state any admissible proposal can be appended and committed: some continuation ends with exactly its entries at the end of the leader's log and everything committed |
| `Stranded.BelowSnapshot` | src/core/raft_core.c:1338-1359 | A request that starts below the follower's snapshot is refused, and the probe stays below it: the condition of CatchUpPossible cannot be dropped |
| `Stranded.StrandedForever` | src/core/raft_core.c:1338-1359 | A concrete run with any number of answered requests in which the learner holds the leader's entry and the leader never learns of it |
| `RaftCore.Core.constructor` | src/core/raft_core.c:1448-1669 | A core starts as a follower with the recovered term, vote, log and commit index |
| `RaftCore.Core.OnPreVoteReq` | src/core/raft_core.c:1022-1035 | The fields and messages after a pre-vote request are those of the protocol transition the cluster theorems are about |
| `RaftCore.Core.OnPreVoteResp` | src/core/raft_core.c:1037-1058 | The same for a pre-vote response, through the election it may start |
| `RaftCore.Core.OnVoteReq` | src/core/raft_core.c:1060-1077 | The same for a vote request |
| `RaftCore.Core.OnVoteResp` | src/core/raft_core.c:1079-1099 | The same for a vote response, through the leadership it may start |
| `RaftCore.Core.CastVote` | src/core/raft_core.c:1069-1075 | The vote is granted exactly when the protocol grants it, and only then recorded |
| `RaftCore.Core.OnTimeoutNow` | src/core/raft_core.c:1373-1385 | The same for a hand-over request |
| `RaftCore.Core.OnAppendReq` | src/core/raft_core.c:1101-1204 | The same for AppendEntries: log, term, commit index and the one reply |
| `RaftCore.Core.OnAppendResp` | src/core/raft_core.c:1288-1371 | The same for an AppendEntries response: progress, window, commit index, hand-over and refill |
| `RaftCore.Core.Locate` | src/core/raft_core.c:1304-1319 | A response is ignored exactly when it answers no request in the window or claims more than the log |
| `RaftCore.Core.Accepted` | src/core/raft_core.c:1324-1337 | Progress, window and commit index after an accepted response |
| `RaftCore.Core.Rejected` | src/core/raft_core.c:1338-1359 | Back-off to the request's start or the hint, never below the match index |
| `RaftCore.Core.Continue` | src/core/raft_core.c:1360-1369 | The tail of a response: hand leadership over, refill the window or do nothing |
| `RaftCore.Core.EmitReplicationTo` | src/core/raft_core.c:677-749 | One replication step: nothing, a snapshot request, a slice of at most eight entries or a heartbeat |
| `RaftCore.Core.SendEntries` | src/core/raft_core.c:715-748 | The request carries exactly the next entries of the log and enters the window |
| `RaftCore.Core.BroadcastReplication` | src/core/raft_core.c:751-766 | The peer loop sends to every other peer, in whatever order |
| `RaftCore.Core.FillWindow` | src/core/raft_core.c:801-814 | The fill loop sends until the window, the log or the room ends |
| `RaftCore.Core.AdvanceCommit` | src/core/raft_core.c:1206-1239 | The downward search finds the highest index of the own term matched by a majority |
| `RaftCore.Core.MatchQuorum` | src/core/raft_core.c:326-343 | The counting loop decides whether a majority matches an index |
| `RaftCore.Core.HasQuorum` | src/core/raft_core.c:304-324 | The counting loop decides whether a set of voters is a majority |
| `RaftCore.Core.FallBack` | src/core/raft_core.c:906-930 | Every field of becoming a follower, with the vote kept exactly when the term is |
| `RaftCore.Core.Lead` | src/core/raft_core.c:932-959 | Taking leadership: fresh progress for every peer, then the first broadcast |
| `RaftCore.Core.Elect` | src/core/raft_core.c:961-978 | Standing for election, and leading at once when alone |
| `RaftCore.Core.PreVote` | src/core/raft_core.c:980-995 | Declaring a pre-vote, and standing at once when alone |
| `RaftCore.Core.CandidateUpToDate` | src/core/raft_core.c:506-515 | The candidate's log is at least as recent: later last term, or the same and not shorter |
| `RaftCore.Core.Submit` | src/core/raft_core.c:1958-2027 | A proposal batch: all entries or none, then commit and broadcast |
| `RaftCore.Core.TransferLeadership` | src/core/raft_core.c:2079-2128 | A transfer sends the hand-over at once or replicates first; while one is under way, reads are held or the target is paused it changes nothing |
| `RaftCore.Core.Tick` | src/core/raft_core.c:1750-1790 | A leader tick resets expired windows and sends heartbeats |
| `RaftCore.Core.SnapshotDone` | src/core/raft_core.c:2347-2386 | Progress restarts behind a completed snapshot; an index above the base changes nothing |
| `RaftCore.Core.CompactTo` | src/core/raft_core.c:2326-2345 | Compaction succeeds exactly at a later entry of the given term, and changes nothing but the base of the log |
| `AppendWindow.Window.constructor` | src/core/raft_core.c:80-85 | An empty ring |
| `AppendWindow.Window.Reset` | src/core/raft_core.c:80-85 | The ring is empty and probes as told |
| `AppendWindow.Window.Push` | src/core/raft_core.c:109-125 | The request joins at the end unless all 64 slots are taken |
| `AppendWindow.Window.Find` | src/core/raft_core.c:127-140 | The first request with the given start, or none |
| `AppendWindow.Window.PopFront` | src/core/raft_core.c:146-160 | The oldest request leaves and the others keep their order across the wrap-around |
| `AppendWindow.Window.Release` | src/core/raft_core.c:142-162 | Exactly the leading requests at or below the match index leave |
| `RaftLog.ReconcileCorrect` | src/core/raft_log.c:313-405 | Reconcile keeps the prefix, ends with every incoming entry in place, stays contiguous and bounded, and changes nothing on mismatch, error or full match |
| `RaftLog.ReconcileDropsOnlyConflicts` | src/core/raft_log.c:341-385 | It truncates only at the first term conflict and never at or below the protected index |
| `RaftLog.ReconcileRefinesAppend` | src/core/raft_log.c:341-405 | It equals the one-entry-at-a-time rule of the Raft paper |
| `RaftLog.ReconcileExact` | src/core/raft_log.c:313-405 | A batch is taken exactly when its predecessor matches, its entries are well formed and equal to the log wherever terms agree, the first conflict is above the protected index and everything fits; each error has its own exact condition |
| `RaftLog.EntryStatusExact` | src/core/raft_log.c:341-369 | Which incoming entries are well formed, configurations in their canonical bytes included, and which error each other one gives |
| `RaftLog.ScanExact` | src/core/raft_log.c:341-369 | The scan ends at the first entry the log does not hold, or at the first that fails the check before it |
| `RaftLog.RejectHintSkipsRun` | src/core/raft_log.c:24-51 | The hint is the start of the run of equal terms that ends at the rejected index, for every rejected index |
| `RaftLog.ScanMeaning` | src/core/raft_log.c:341-369 | The scan stops at the first index past the log or with a different term, and everything before it is equal |
| `RaftLog.EntryLog.constructor` | src/core/raft_log.c:53-83 | An empty log above the base |
| `RaftLog.EntryLog.Get` | src/core/raft_log.c:116-128 | Lookup by index above the base |
| `RaftLog.EntryLog.MatchesAt` | src/core/raft_log.c:130-144 | The predecessor check at, below and above the base |
| `RaftLog.EntryLog.Hint` | src/core/raft_log.c:24-51 | The backwards loop computes the specified hint |
| `RaftLog.EntryLog.Compact` | src/core/raft_log.c:146-177 | The entries through the point leave, the rest stay, and a wrong point changes nothing |
| `RaftLog.EntryLog.AppendBatch` | src/core/raft_log.c:217-281 | All proposals are appended, numbered in order, or none |
| `RaftLog.EntryLog.FirstChange` | src/core/raft_log.c:341-369 | The scanning loop computes the specified first change |
| `RaftLog.EntryLog.Overwrite` | src/core/raft_log.c:371-402 | Truncation and copying leave the prefix followed by the incoming tail |
| `RaftLog.EntryLog.Reconciles` | src/core/raft_log.c:313-405 | Status, hint and resulting log are those of the specification in every case |
| `Configuration.DecodeEncode` | src/core/raft_configuration.c:83-167 | Decoding an encoding gives back the configuration, for every valid configuration |
| `Configuration.EncodeDecode` | src/core/raft_configuration.c:124-167 | Any bytes that decode are exactly the encoding of a valid configuration |
| `Configuration.BigEndianRoundTrip` | src/core/raft_configuration.c:10-29 | Reading big-endian bytes back gives the number |
| `Configuration.BigEndianCanonical` | src/core/raft_configuration.c:10-29 | Every byte string is the big-endian form of its value |
| `Configuration.PutU64` | src/core/raft_configuration.c:10-18 | The shifting loop writes the eight bytes and nothing else |
| `Configuration.GetU64` | src/core/raft_configuration.c:20-29 | The shifting loop reads them back |
| `Configuration.Validate` | src/core/raft_configuration.c:49-81 | The one-pass check accepts exactly the valid configurations |
| `Configuration.Encode` | src/core/raft_configuration.c:83-122 | The buffer starts with the encoding, the rest is untouched, and an error writes nothing |
| `Configuration.Decode` | src/core/raft_configuration.c:124-167 | The parse loop accepts exactly the canonical strings |
| `Configuration.EntryRoundTrip` | src/core/raft_configuration.c:169-213 | A configuration survives being carried by a log entry |
| `Membership.JointThenFinal` | src/core/raft_membership.c:158-272 | The final of a joint configuration has the members of the stable target if and only if the target avoids the id the merge uses as its end mark |
| `Membership.JointOldVoters` | src/core/raft_membership.c:158-240 | The old voters of a joint configuration are exactly the current voters if and only if none of them has the id the merge uses as its end mark |
| `Membership.QuorumsOverlap` | src/core/raft_membership.c:310-340 | Any quorum of a valid configuration meets any quorum of the same or the succeeding one |
| `Membership.MajoritiesMeet` | src/core/raft_membership.c:310-340 | Two majorities of one voter set share a voter |
| `Membership.RolesDetermine` | src/core/raft_membership.c:293-299 | A sorted member list is determined by the role of every id |
| `Membership.FinalRolesOf` | src/core/raft_membership.c:242-272 | The final configuration gives every id its new role |
| `Membership.FinalValid` | src/core/raft_membership.c:242-272 | The final of a valid joint configuration is valid and stable |
| `Membership.ValidateSets` | src/core/raft_membership.c:8-48 | The loops accept exactly sorted, disjoint, non-zero id lists within the limits |
| `Membership.IsStable` | src/core/raft_membership.c:50-76 | The check accepts exactly the valid configurations without a transition |
| `Membership.UnionCount` | src/core/raft_membership.c:78-122 | The three-way merge counts the distinct ids |
| `Membership.Stable` | src/core/raft_membership.c:124-156 | The two-way merge is sorted and gives every id exactly its role |
| `Membership.MergeJoint` | src/core/raft_membership.c:186-234 | The three-way merge is sorted and combines old voter, new voter and learner roles of every id |
| `Membership.Joint` | src/core/raft_membership.c:158-240 | It succeeds exactly when the union fits and both voter sets survive, and then gives every id its joint roles |
| `Membership.Final` | src/core/raft_membership.c:242-272 | It succeeds exactly on a valid joint configuration |
| `Membership.HasQuorum` | src/core/raft_membership.c:310-340 | The counting loop decides a majority, of both voter sets while joint |
| `Membership.MatchQuorum` | src/core/raft_membership.c:342-361 | The same over match indices |
| `MembershipChange.QuorumExact` | src/core/raft_membership.c:310-340 | A quorum is exactly more than half of the old voters together with more than half of the new ones |
| `PeerSet.IsMergeable` | src/core/raft_peer_set.c:8-25 | The check accepts exactly sorted member lists of a usable size |
| `PeerSet.Least` | src/core/raft_peer_set.c:48-64 | The cursors give the least id not yet taken |
| `PeerSet.Advance` | src/core/raft_peer_set.c:70-79 | Every cursor moves past the id just taken |
| `PeerSet.Build` | src/core/raft_peer_set.c:27-81 | The k-way merge is the sorted union of up to three configurations, or an error exactly when it does not fit |
| `PeerSet.Index` | src/core/raft_peer_set.c:83-100 | The search finds the position of an id, or reports that it is absent |
| `MembershipTransition.ChainSafe` | src/core/raft_membership_transition.c:62-259 | Over any history of stage, clamped commit, unclamped apply and rebuild calls, every quorum of a configuration meets every quorum of the one committed next, also when one call passes several |
| `MembershipTransition.AlwaysLegal` | src/core/raft_membership_transition.c:170-259 | Every reachable state has one of the legal shapes, with strictly increasing pending indices, and the configurations committed so far form a chain of successors |
| `MembershipTransition.ClampAppliesOne` | src/core/raft_membership_transition.c:228-259 | A clamped commit applies at most one configuration, and that one succeeds the committed one |
| `MembershipTransition.ApplyKeepsLegal` | src/core/raft_membership_transition.c:239-259 | Applying up to any index keeps the shape legal and passes only from a configuration to its successor |
| `MembershipTransition.StageKeepsLegal` | src/core/raft_membership_transition.c:170-208 | Staging anything, at any index, keeps the state legal and the committed configuration |
| `MembershipTransition.OldVotersMatch` | src/core/raft_membership_transition.c:28-60 | The two-cursor walk decides whether two member lists have the same old voters |
| `MembershipTransition.Transition.constructor` | src/core/raft_membership_transition.c:136-147 | The machine starts with nothing pending |
| `MembershipTransition.Transition.Follows` | src/core/raft_membership_transition.c:62-112 | A configuration is accepted exactly when it may follow the newest one |
| `MembershipTransition.Transition.Stage` | src/core/raft_membership_transition.c:170-208 | A configuration is added exactly when it may follow at a later index; the same one at the same index is accepted again, anything else changes nothing |
| `MembershipTransition.Transition.Limit` | src/core/raft_membership_transition.c:228-237 | The limit passes neither the candidate nor the first pending configuration, and is one of the two |
| `MembershipTransition.Transition.Apply` | src/core/raft_membership_transition.c:239-259 | The shifting loop makes every reached configuration the committed one in turn, leaves only later ones pending and keeps the machine legal |
| `MembershipTransition.Transition.Commit` | src/core/raft_membership_transition.c:228-259 | Limit and apply together move the committed configuration by at most one successor |
| `MembershipTransition.Transition.Propose` | src/core/raft_membership_transition.c:149-168 | A joint configuration with the roles of both sets is built exactly when nothing is under way and everyone fits, and can then be staged at any index if and only if no current voter has the end mark id |
| `MembershipTransition.Transition.NextFinal` | src/core/raft_membership_transition.c:261-279 | The final configuration to propose, exactly when a joint one is committed with nothing pending; it can be staged at any index |
| `MembershipChange.ApplyExact` | src/core/raft_membership_transition.c:239-259 | An apply activates exactly the staged configurations the commit index has reached, and the last of them is the committed one |
| `MembershipChange.FinalBehindJoint` | src/core/raft_membership_transition.c:62-112 | The final configuration can be staged behind a pending joint one at any later index whenever the joint one could be |
| `MembershipChange.FinalTargets` | src/core/raft_membership.c:242-272 | Leaving the joint configuration built for target sets reaches exactly those sets, the end mark id aside |
| `MembershipChange.Change` | src/core/raft_membership_transition.c:149-279 | Propose, stage, commit, final, stage, commit: exactly when the change is admissible the machine ends in the target sets with nothing pending, and otherwise as it was |
| `WalFormat.ParseEncoded` | src/storage/raft_wal_storage.c:1274-1427 | Parsing what was encoded gives back every operation and the rest of the bytes |
| `WalFormat.ParseCanonical` | src/storage/raft_wal_storage.c:1274-1427 | Bytes that parse as an operation are exactly its encoding |
| `WalFormat.LittleRoundTrip` | src/storage/raft_wal_storage.c:222-252 | Reading little-endian bytes back gives the number |
| `WalFormat.GetWord` | src/storage/raft_wal_storage.c:244-252 | The shifting loop reads the eight bytes |
| `Wal.PayloadRoundTrip` | src/storage/raft_wal_storage.c:1274-1427 | Interpreting an encoded transaction equals applying its operations one by one |
| `Wal.ReplayPayload` | src/storage/raft_wal_storage.c:1274-1427 | The replay loop computes the specified interpretation |
| `Wal.FrameReplays` | src/storage/raft_wal_storage.c:1429-1522 | A complete frame is replayed and the scan continues behind it |
| `Wal.TornFrameIgnored` | src/storage/raft_wal_storage.c:1466-1495 | A frame cut at any byte is ignored at the end of the last segment |
| `Wal.ReplayContinues` | src/storage/raft_wal_storage.c:1429-1522 | What was accepted in full is a prefix of any longer replay |
| `Wal.ReplayTruncated` | src/storage/raft_wal_storage.c:1524-1643 | Cutting off the unclaimed tail changes nothing else |
| `Wal.Load` | src/storage/raft_wal_storage.c:1524-1643 | The segment loop computes the specified recovery of the live range |
| `Wal.CommitAtomic` | src/storage/raft_wal_storage.c:1184-1263 | However many bytes of a commit frame reached the disk, reopening gives the state before or, only when all did, after the transaction |
| `Wal.OrphanIgnored` | src/storage/raft_wal_storage.c:1212-1253 | A new segment outside the manifest range changes nothing, whatever it holds |
| `Wal.RotationAtomic` | src/storage/raft_wal_storage.c:1212-1253 | The same for a commit that rotates: before the manifest moves nothing, afterwards everything |
| `Wal.CheckpointForgets` | src/storage/raft_wal_storage.c:1342-1420 | A snapshot that covers the log applies to the empty state as to the full history, and needs no payload file but its own |
| `Wal.CheckpointAtomic` | src/storage/raft_wal_storage.c:1940-2051 | Checkpoint compaction: every crash point recovers the old or the new state, and the checkpoint segment alone replays to what the whole history does |
| `WalFiles.ReplayMore` | src/storage/raft_wal_storage.c:648-765 | Payload files that replay does not ask for change nothing |
| `WalFiles.ReplayLeft` | src/storage/raft_wal_storage.c:1417-1420 | A log that replays to a snapshot has that snapshot's payload file |
| `WalFiles.Unlinked` | src/storage/raft_wal_storage.c:1417-1420 | A log does not replay without the payload file of its latest snapshot |
| `WalFiles.RefusedStays` | src/storage/raft_wal_storage.c:1429-1522 | A log that does not replay for a missing payload file still does not however it grows |
| `WalStorage.Storage.Create` | src/storage/raft_wal_storage.c:946-1011 | A fresh log replays to the empty state |
| `WalStorage.Storage.Reopen` | src/storage/raft_wal_storage.c:1645-1797 | Reopening cuts the torn tail and stands where replay ended |
| `WalStorage.Storage.Begin` | src/storage/raft_wal_storage.c:1085-1098 | A transaction starts empty from the durable state, and only when none is open |
| `WalStorage.Storage.Buffer` | src/storage/raft_wal_storage.c:1056-1083 | The operation's bytes join the transaction exactly when they fit |
| `WalStorage.Storage.WriteHardState` | src/storage/raft_wal_storage.c:1100-1116 | Exactly a term that is not below the pending one, when it fits, makes term and vote the given ones; else nothing changes |
| `WalStorage.Storage.TruncateLog` | src/storage/raft_wal_storage.c:1118-1134 | Exactly an index above commit and snapshot and at most one past the log, when it fits, leaves the pending entries below it, in order; else nothing changes |
| `WalStorage.Storage.AppendLog` | src/storage/raft_wal_storage.c:1136-1167 | The pending entries are followed by a prefix of the batch, by all of it exactly when it continues the log and fits |
| `WalStorage.Storage.WriteCommitIndex` | src/storage/raft_wal_storage.c:1169-1182 | Exactly an index between the pending commit index and the last index, when it fits, becomes the commit index |
| `WalStorage.Storage.Rollback` | src/storage/raft_wal_storage.c:1265-1272 | A rolled-back transaction leaves no trace on disk or in the recovered state, also one that a snapshot without room left open |
| `WalStorage.Storage.Publish` | src/storage/raft_wal_storage.c:1184-1263 | Exactly when it fits the frame goes to the current or a rotated segment, the log is then that of the new state, and the disk replays exactly when it did before |
| `WalStorage.Storage.Commit` | src/storage/raft_wal_storage.c:1184-1263 | A commit succeeds exactly when a transaction is open and its frame fits; the pending state is then the durable one, the disk replays exactly when it did before, and a refused commit changes nothing |
| `WalStorage.Storage.StoreSnapshot` | src/storage/raft_wal_storage.c:1867-2080 | A snapshot is stored exactly when the log can be loaded, the snapshot is newer, does not conflict, has an intact payload and fits; the durable state then has the snapshot and exactly the entries above it that still connect to it, and the disk replays if and only if there was no earlier snapshot or no entry survives behind this one; a refused one leaves the log as it was, and what else it leaves is exact |
| `WalStorage.Storage.Recovers` | src/storage/raft_wal_storage.c:1852-1865 | Whenever the disk replays at all, it replays to the state the writer believes durable |
| `WalStorage.Storage.WriteFile` | src/storage/raft_wal_storage.c:767-929 | The payload gets its file, unless one of that name is there, which must then hold the declared data |
| `WalStorage.Storage.Checkpoint` | src/storage/raft_wal_storage.c:1940-2051 | The checkpoint segment becomes the whole live range and replays to the same state with no payload file but its own; a frame larger than the transaction buffer ends the instance |
| `WalStorage.TornTailCut` | src/storage/raft_wal_storage.c:1770-1792 | A replayed log with a torn tail, cut where replay stopped, is settled and replays to the same state |
| `WalMeaning.TruncateMeans` | src/storage/raft_wal_storage.c:1309-1316 | A replayed truncation keeps exactly the entries below its index, in order, and is accepted exactly above commit and snapshot and up to one past the log |
| `WalMeaning.AppendsMean` | src/storage/raft_wal_storage.c:1318-1333 | A replayed batch puts exactly its entries behind the log |
| `WalMeaning.SurvivorsMean` | src/storage/raft_wal_storage.c:1342-1420 | A snapshot keeps exactly the entries above it, if the log holds the entry it ends with, and none otherwise |
| `WalMeaning.HardStateStays` | src/storage/raft_wal_storage.c:1295-1300 | Term and vote stay what they were written until they are written again |
| `WalMeaning.PayloadWritten` | src/storage/raft_wal_storage.c:1274-1427 | A payload that replay accepts is the encoding of operations, which it applies in turn |
| `WalMeaning.FrameWritten` | src/storage/raft_wal_storage.c:1429-1522 | An accepted frame is the writer's frame for its number, predecessor and payload |
| `WalMeaning.ReplayWritten` | src/storage/raft_wal_storage.c:1429-1522 | Replay accepts nothing but the frames of consecutive transactions, checksums included, and its state is what those transactions leave |
| `WalMeaning.SegmentWritten` | src/storage/raft_wal_storage.c:1429-1522 | An accepted segment, up to a torn tail, is the header and the transactions a writer put there |
| `WalStorage.StorableExact` | src/storage/raft_wal_storage.c:1867-1938 | A node's own snapshot ends at a committed entry of its log; one a leader sent is at or above the commit index |
| `WalRoundTrip.Persist` | src/storage/raft_wal_storage.c:1085-1263 | A transaction of hard state, truncation, entries and commit index is durable exactly when it takes nothing back, leaves no gap and fits; the durable state then has exactly that term, vote and commit index, and the former entries below the truncation followed by the new ones |
| `WalRoundTrip.Reload` | src/storage/raft_wal_storage.c:1645-1797 | Closing and opening again gives the same durable state, read back from the disk |
| `WalRoundTrip.Survives` | src/storage/raft_wal_storage.c:1085-1263 | What a transaction wrote is what the reopened log stands at, term and vote included, also behind a later one |
| `WalStorage.CommitReopens` | src/storage/raft_wal_storage.c:1184-1263 | A commit interrupted after any number of bytes leaves a disk that can be opened, in the state before or after it |
| `WalStorage.RotationReopens` | src/storage/raft_wal_storage.c:1212-1253 | The same for a commit that rotates, before and after the manifest moves |
| `WalStorage.CheckpointReopens` | src/storage/raft_wal_storage.c:1958-2051 | The same for a checkpoint in a new segment, whatever older segments and payload files are left |
| `WalStorage.CheckpointHereReopens` | src/storage/raft_wal_storage.c:1979-2051 | The same for a checkpoint in an empty current segment |
| `WalStorage.PayloadReopens` | src/storage/raft_wal_storage.c:767-929 | A payload file written before its operation leaves a disk that can be opened as before |
| `WalStorage.UnlinkReopens` | src/storage/raft_wal_storage.c:2052-2063 | Removing the previous payload file from a log that goes on leaves a disk that can be opened if and only if there was none |
| `WalStorage.FileLost` | src/storage/raft_wal_storage.c:2052-2063 | The log that goes on behind a removed payload file does not replay |
| `SnapshotLoss.LostLog` | src/storage/raft_wal_storage.c:1867-2080 | Three entries, two of them committed, and a snapshot at the first and then at the second: both calls succeed, the disk does not replay afterwards, and no further snapshot is taken |
| `SnapshotTransfer.TransferSafe` | src/snapshot/raft_snapshot_sender.c:307-478 | Over any run with loss, duplication, reordering, cancel, resume and resets, the assembled data is a prefix of the source, only the whole source is ever installed, at most once between two resets, and a complete sender means it was; the sender's acknowledged offset never exceeds what the receiver has held |
| `SnapshotTransfer.StepKeeps` | src/snapshot/raft_snapshot_receiver.c:241-345 | Every step of either end keeps the joint invariant |
| `SnapshotTransfer.HandleKeeps` | src/snapshot/raft_snapshot_receiver.c:241-345 | A genuine chunk keeps the data a prefix and installs once, exactly when the last byte arrives, and an accepted acknowledgement names the length held |
| `TransferProgress.AckHonest` | src/snapshot/raft_snapshot_receiver.c:276-344 | An accepted acknowledgement names exactly the length of what is held after the call, for any chunk at all |
| `TransferProgress.InOrder` | src/snapshot/raft_snapshot_receiver.c:289-344 | A chunk that follows on is taken by a willing sink: exactly the source up to its end is held, and the last one installs the source |
| `TransferProgress.OutOfOrder` | src/snapshot/raft_snapshot_receiver.c:276-288 | A chunk the receiver has already is acknowledged with what it holds, a gap is refused with it; nothing changes |
| `TransferProgress.SenderTurn` | src/snapshot/raft_snapshot_sender.c:307-478 | Claiming the next chunk and taking its acknowledgement moves the acknowledged offset past exactly that chunk, and completes the sender at the end |
| `TransferProgress.TransferPossible` | src/snapshot/raft_snapshot_receiver.c:241-345 | From every reachable state of a transfer, whatever was lost or repeated, some continuation with a willing sink ends with the source installed and the sender complete |
| `SnapshotTransfer.ClaimTiled` | src/snapshot/raft_snapshot_sender.c:307-366 | A new claim keeps the claims a tiling in distinct slots |
| `SnapshotTransfer.CancelTiled` | src/snapshot/raft_snapshot_sender.c:368-385 | Cancelling the last claim keeps the tiling |
| `SnapshotTransfer.ResumeTiled` | src/snapshot/raft_snapshot_sender.c:387-399 | Resuming returns to the acknowledged offset |
| `SnapshotTransfer.AckTiled` | src/snapshot/raft_snapshot_sender.c:401-478 | A cumulative acknowledgement keeps the tiling |
| `SnapshotTransfer.CompletedByAck` | src/snapshot/raft_snapshot_sender.c:401-478 | Only an accepted acknowledgement of the whole source completes the sender |
| `SnapshotObjects.SnapshotSender.constructor` | src/snapshot/raft_snapshot_sender.c:163-252 | A sender starts with nothing claimed |
| `SnapshotObjects.SnapshotSender.FindFreeSlot` | src/snapshot/raft_snapshot_sender.c:118-134 | The least slot no claim uses, or the limit |
| `SnapshotObjects.SnapshotSender.NextChunk` | src/snapshot/raft_snapshot_sender.c:307-366 | The chunk handed out carries the claimed source bytes, and earlier buffers keep theirs |
| `SnapshotObjects.SnapshotSender.CancelChunk` | src/snapshot/raft_snapshot_sender.c:368-385 | Exactly the newest claim can be taken back |
| `SnapshotObjects.SnapshotSender.PrepareResume` | src/snapshot/raft_snapshot_sender.c:387-399 | All claims are dropped back to the acknowledged offset |
| `SnapshotObjects.SnapshotSender.Release` | src/snapshot/raft_snapshot_sender.c:457-472 | The shifting loop drops exactly the claims at or below the offset |
| `SnapshotObjects.SnapshotSender.Acknowledge` | src/snapshot/raft_snapshot_sender.c:401-478 | Offsets, claims and completion are those of the specification; a refused acknowledgement changes nothing |
| `SnapshotObjects.SnapshotReceiver.constructor` | src/snapshot/raft_snapshot_receiver.c:173-220 | A receiver starts idle |
| `SnapshotObjects.SnapshotReceiver.Start` | src/snapshot/raft_snapshot_receiver.c:111-156 | A transfer begins empty; without a buffer for it the old one stays, and a sink that refuses leaves the receiver idle |
| `SnapshotObjects.SnapshotReceiver.Take` | src/snapshot/raft_snapshot_receiver.c:276-344 | One chunk of the transfer in progress: duplicates, gaps, extension, digest check and installation |
| `SnapshotObjects.SnapshotReceiver.HandleChunk` | src/snapshot/raft_snapshot_receiver.c:241-345 | State, status, acknowledgement and installation are those of the specification for any chunk |
| `ApplyCore.Core.TakeReady` | src/core/raft_core.c:561-589 | A call keeps the committed entries and offers those not yet admitted |
| `ApplyCore.Core.Compact` | src/core/raft_core.c:2326-2345 | The log is compacted only at the applied index, once everything committed is applied |
| `ApplyCore.Core.AckReady` | src/core/raft_core.c:2208-2234 | The admitted index moves by exactly the acknowledged count |
| `ApplyCore.Core.AckApplied` | src/core/raft_core.c:2236-2257 | The applied index moves by one, in order, never past the admitted index |
| `ApplyCore.Core.Advance` | src/core/raft_core.c:2259-2278 | The older protocol: applied and admitted jump to the Ready's end, only when in step |
| `SyncRuntime.Runtime.constructor` | src/runtime/raft_runtime.c:270-292 | A runtime starts with nothing delivered |
| `SyncRuntime.Runtime.AckRange` | src/runtime/raft_runtime.c:65-86 | The loop acknowledges exactly the given entries |
| `SyncRuntime.Runtime.ApplyFrom` | src/runtime/raft_runtime.c:106-194 | Commands reach the state machine in order and once each, up to the first refusal, which is what the call returns with the place where it stopped; configurations pass without it |
| `SyncRuntime.Runtime.SendAll` | src/runtime/raft_runtime.c:346-369 | Exactly the messages before the first refusal leave, none before its Ready is stored, and the refusal is returned |
| `SyncRuntime.Runtime.Publish` | src/runtime/raft_runtime.c:300-369 | What reaches storage and transport is the store followed by one message per leading success |
| `SyncRuntime.Runtime.Offer` | src/runtime/raft_runtime.c:133-194 | One batch is taken whole or refused: a busy state machine blocks the runtime there, any other refusal ends it |
| `SyncRuntime.Runtime.Process` | src/runtime/raft_runtime.c:300-379 | Persist, send, apply, advance: the result is the first refusal of storage, transport or state machine, EBUSY of the last alone blocks, any other faults; delivered commands are exactly the applied ones |
| `SyncRuntime.Runtime.RetryApply` | src/runtime/raft_runtime.c:391-418 | A retry continues where the refusal stopped and returns the next refusal |
| `SyncRuntime.CommandsConcat` | src/runtime/raft_runtime.c:106-194 | The commands of a concatenation are the concatenated commands |
| `SyncRuntime.TakesRun` | src/runtime/raft_runtime.c:133-142 | A run without configurations is delivered whole |
| `ApplyRuntime.AsyncRuntime.constructor` | src/runtime/raft_apply_runtime.c:284-332 | A runtime starts empty |
| `ApplyRuntime.DrivenMeans` | src/runtime/raft_apply_runtime.c:226-282 | Exactly the configurations before the first command are passed; an accepted command is out, a full queue leaves it to be offered again, any other answer ends the runtime |
| `ApplyProgress.Finish` | src/runtime/raft_apply_runtime.c:457-534 | With a state machine that accepts and settles, polling applies everything admitted: the settled commands grow by exactly the admitted ones, in order |
| `ApplyRuntime.AsyncRuntime.TakeReady` | src/core/raft_core.c:561-589 | Between calls the core may move on as long as it keeps what is committed |
| `ApplyRuntime.AsyncRuntime.CompactEntries` | src/runtime/raft_apply_runtime.c:55-75 | The waiting entries move to the front unchanged |
| `ApplyRuntime.AsyncRuntime.Advance` | src/runtime/raft_apply_runtime.c:237-247 | The applied index moves by exactly one and the settled command is recorded once |
| `ApplyRuntime.AsyncRuntime.Drive` | src/runtime/raft_apply_runtime.c:226-282 | Applied moves past exactly the configurations in front, and the next command is offered once, with the state and result its answer gives |
| `ApplyRuntime.AsyncRuntime.Poll` | src/runtime/raft_apply_runtime.c:457-534 | A clean settlement of the token in flight moves applied past exactly that entry and the configurations behind it; every other answer has its own state and result and settles nothing |
| `ApplyRuntime.AsyncRuntime.Reconcile` | src/runtime/raft_apply_runtime.c:536-584 | A decision for the entry in flight settles it, moving applied past it and the configurations behind it, or re-offers it; anything else is refused and changes nothing |
| `ApplyRuntime.AsyncRuntime.CopyIn` | src/runtime/raft_apply_runtime.c:404-409 | The copied entries join behind the waiting ones |
| `ApplyRuntime.AsyncRuntime.Admit` | src/runtime/raft_apply_runtime.c:404-442 | The buffer is again exactly the committed entries between applied and admitted, and the Ready is acknowledged |
| `ApplyRuntime.AsyncRuntime.Publish` | src/runtime/raft_apply_runtime.c:129-224 | What reaches storage and transport is the store followed by one message per leading success, never a message before its store |
| `ApplyRuntime.AsyncRuntime.Start` | src/runtime/raft_apply_runtime.c:334-455 | A Ready that does not fit changes nothing, inside or outside; otherwise it is stored and sent up to the first failure, which kills the runtime, or admitted whole |
| `Service.PeerRing.Stage` | src/service/raft_service.c:239-263 | The message joins the ring at the end unless it is full |
| `Service.PeerRing.Pop` | src/service/raft_service.c:368-386 | The oldest message is the one handed out; it leaves and the others keep their order across the wrap-around |
| `Service.Staging.Enqueue` | src/service/raft_service.c:277-312 | For every peer, accepted followed by staged stays what was emitted; exactly a full transport pauses the addressee, and only the addressee is affected |
| `Service.Staging.EnqueueAll` | src/runtime/raft_runtime.c:346-355 | The messages of a whole Ready keep every peer's order, exactly the peers whose transport is full become paused and keep their messages from the first full answer on, the first other error is returned, and no ring can overflow |
| `Service.Staging.EnqueueSnapshot` | src/service/raft_service.c:314-349 | Every snapshot request is with the transport or staged; a second one for the same peer would fault the service |
| `Service.Staging.EnqueueSnapshots` | src/runtime/raft_runtime.c:356-369 | The requests of a Ready never meet one already staged, so only the transport can fail them; exactly those that are not taken are staged, and the first other error is returned |
| `Service.Staging.EnqueueReady` | src/runtime/raft_runtime.c:346-369 | Messages and snapshot requests of a whole Ready together, with the first error of either |
| `Service.ReadySpares` | src/runtime/raft_runtime.c:346-369 | The Ready of any call into the core addresses no peer that was paused, as EnqueueReady asks |
| `PausedPeers.FireGated` | src/core/raft_core.c:591-640 | No call into a core addresses a paused peer, and its snapshot requests for one peer are one |
| `Service.RefusalMeans` | src/service/raft_service.c:351-417 | A drain lets the peer go on exactly when the transport took everything staged for it, and otherwise stops at the first answer that is not OK |
| `Service.Staging.Drain` | src/service/raft_service.c:351-417 | Exactly the messages before the first refusal go out, in order; a full transport leaves the rest staged and the peer paused, any other refusal is returned and faults, and when all is taken the staged snapshot goes and the peer is unpaused; no other peer changes |
| `ReadIndex.Reads.constructor` | src/core/raft_core.c:839-855 | No read is held |
| `ReadIndex.Reads.Read` | src/core/raft_core.c:2130-2183 | A context is admitted exactly when allowed; it joins a barrier at the present commit index, waits behind another, or starts one |
| `ReadIndex.Reads.Admissible` | src/service/raft_service.c:1101-1133 | The checks accept exactly new contexts within both bounds |
| `ReadIndex.Reads.StartBarrier` | src/core/raft_core.c:889-904 | Waiting contexts become the barrier at the commit index, or complete at once when alone |
| `ReadIndex.Reads.Complete` | src/core/raft_core.c:857-873 | The active contexts complete at the barrier's index; none is lost or duplicated |
| `ReadIndex.Reads.Response` | src/core/raft_core.c:1403-1432 | A first acknowledgement of the current barrier is counted, any other changes nothing; the one that makes a quorum completes the whole batch at the barrier's index, and the waiting contexts get their barrier when there is room |
| `ReadIndex.Reads.Poll` | src/core/raft_core.c:2185-2206 | Waiting contexts of a leader get their barrier exactly when none is running and there is room; otherwise nothing moves |
| `ReadIndex.Reads.LoseLeadership` | src/core/raft_core.c:849-855 | Pending contexts go, completed ones stay |
| `ReadIndex.Reads.Take` | src/service/raft_service.c:1135-1169 | A read is released only once applied, at an index not below the commit index at its admission |

## Left out

- Agreement.StateMachineSafety: holds for nodes whose own accepted requests meet Vouched, because the code does not enforce that bound; CommitStepExact shows the condition is exact for every step.
- Agreement.StepCommitted: the same condition on the node's own call.
- Pipeline.PipeliningSound: the tiling half asks for completions at or above the match index, because the code accepts others; CompletionExact shows the condition is exact.
- Pipeline.FirePiped: the same condition on the one call.
- Replication.CatchUpPossible: asks that the probe starts at or above the follower's snapshot, because the code never gets further otherwise (BelowSnapshot, StrandedForever).
- Replication.CommitPossible: the followers' logs are prefixes of the leader's, because a follower with other entries can commit them while a heartbeat passes (CommitDivergence).
- Replication.ProposalPossible: the same condition on the followers.
- RaftCore.Core.OnAppendReq: asks for consecutively numbered entries, which every leader sends; the code validates numbers only up to the first change.
- RaftLog.ReconcileCorrect: asks for the same consecutive numbering, for the same reason.
- RaftCore.Core.Tick: elapsed ticks, timeouts and their randomisation are not modelled; which windows expired and whether a heartbeat is due are inputs.
- ReadIndex.Reads.Response: states index bounds and not linearizability, because a context that joins a running barrier reuses acknowledgements made before it.
- WalStorage.Storage.StoreSnapshot: payload bytes are represented by their length, checksum and digest, and payload files change only by the writer's own calls.
- WalStorage.Storage.Reopen: a log whose only segment holds a torn first frame behind a compaction is excluded, which no crash leaves behind (CommitReopens, RotationReopens, CheckpointReopens, CheckpointHereReopens), as are logs without a manifest.
- Service.Staging.Drain: a peer that has left the core, whose staged messages are dropped, is not modelled.
- A restart in the cluster model recovers the stored state; when the log storage cannot is StoreSnapshot's condition.
- RaftCore.Core.TransferLeadership: the number of reads held is an input, because ReadIndex models the reads.
- RaftLog.EntryLog.Reconciles: asks for consecutively numbered entries too.
- Membership.Joint: an id equal to the end mark of the merges is dropped from the result, as in the code.
- Service.Staging.EnqueueAll: the rings are sequences there; PeerRing shows that the circular buffers implement them.
- RaftCore.Core.FillWindow: windows are sequences in the core; AppendWindow shows that the circular buffer implements them.
- Membership changes during a run of the cluster: the cluster theorems fix the voters, and the transition machine is proved on its own.
- Which configurations a received log stages again after a rebuild (the histories of the transition machine allow any), and remapping of peers when the peer set changes.
- The order of messages inside one Ready, except per peer in Service; message capacity is an input called room.
- Liveness in time: the possibility theorems give a continuation of every run, and no scheduler that must take it; check-quorum timing and lease expiry.
- Interrupted writes other than a prefix of the bytes, the process lock and the injected I/O faults of the log storage; checksums and digests are arbitrary functions.
- The snapshot coordinator, manager, installer and peer, which forward to the sender, the receiver and the log storage.
- Wire codec, transports, TLS, control plane, text protocols, multi-core host, data stream and the statechart bridge.
- Counters, status queries, allocation failure and null checks.
