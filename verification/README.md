# Artos, modelled in Dafny

Artos replicates a log over a group of servers with the Raft algorithm (Ongaro and Ousterhout, "In
Search of an Understandable Consensus Algorithm", extended version), serves clients whose messages it
appends to that log, and hands the committed entries to a state machine. This project models a server,
its log store, its client sessions, a client's publish queue and a whole group with its network, and
proves what they promise.

It has two layers.

- **Handlers in place.** The classes `Server` (`Server.dfy`), `MemoryLogStore` (`LogStore.dfy`),
  `ClientSessionManager` (`ClientSessions.dfy`) and `PublishProtocol` (`PublishQueue.dfy`) update their
  fields step by step, with the loops of the original. Each method is proved against its effect: a
  function of the state before it (modules `Handlers`, `Sessions`, `Log`, `Clients`). A method that
  commits may also drop committed entries from the front of the log (`Compacts`).
- **Runs.** Module `Group` puts the same effects together to a step relation of N servers with a fixed
  configuration and a network that loses, duplicates and reorders; timers and clocks are events.
  `GroupSteps.StepKeepsInv` proves an invariant inductive, and `Safety`, `QuorumCommits`, `Applying` and
  `StateMachines` state what it means for every run. Module `ServerRuns` has the runs of one server, which
  may be asked and answered anything, while its group changes and its log is compacted; `Membership`,
  `Changes`, `Continuity` and `Upkeep` are about the same runs, and `Restarts` about a life of several of them.
  `Configurations` says which configuration is in force after each handler, `VotersTell` what a leader
  knows of the sessions of those that elected it, `Exchange` and `Answers` what servers, and servers and
  clients, make of each other's messages. Further run theorems: `ExactlyOnce` (a client and a
  leader), `CatchUp` (a leader and a follower) and `Clients` (a client, answered anything that its one
  assertion admits).
- **Runs that fail.** `Scenarios` builds runs of a group step by step. With it `Departures`, `OlderTerms`
  and `StaleMatches` give runs with voted leaders in which one hypothesis of the theorems on commits does
  not hold, and the conclusion of one of them neither. `TwoChanges` is such a run of one server, for the
  theorem on its configuration.

Ids are numbers instead of UUIDs. The group id is left out of messages, as every message of a group
carries the same one. An assertion of the original is a precondition of the handler, and in a run an
event of its own kind (`Abort`), so that "it never fails" is a theorem (`Safety.NothingAborts`, for logs
that are not compacted). Where compaction makes an assertion fail is said below.

## Where the code departs from Raft

Some theorems of Raft do not hold of this code as it stands. The model keeps the code, and the theorems
say exactly what they need.

- **Leaders without votes.** The last answer to a round of pre-votes ends the round's pre-vote phase
  before the majority is tested, so it can make a server leader in its old term without any vote; so can
  answers that reach a server which has gone back to follower. `UnvotedLeaders.UnvotedExactly` says when,
  `UnvotedLeaders.TwoLeadersInOneTerm` shows two leaders in one term. An election *by votes*
  (`Safety.Elected`) starts from a candidate that is not in a pre-vote phase, or from a server alone in
  its group. Election safety holds of those in every run; log matching and leader completeness hold in
  the runs all of whose elections are by votes (`Safety.VotedRun`).
- **Commits of older terms.** The middle index is committed whatever the term of its entry. Leader
  completeness is about commits that land on an entry of the leader's own term (`Safety.OwnTermAt`).
  `OlderTerms.OlderTermCommitLost` is a run in which another commit is missing from a later leader's log.
- **Matched indices of older tenures.** A new leader resets the next index of its peers, not the matched
  one. Leader completeness and quorum-backed commit are about tenures that begin with nothing matched
  (`Safety.FreshElection`), as the first one of every peer does. `StaleMatches.StaleMatchCommits` is a run
  in which a second tenure commits an entry that no majority has.
- **Commits of unverified entries.** A follower commits to the end of its own log, not to the end of what
  the request verified. `Applying.CommitsVerifiedOnly` says exactly for which state and request that is
  no further. `Departures.FollowerCommitsUnverified` is a run in which a follower commits, by its leader's
  own request, an entry that the leader does not have; in `Departures.AppliedEntryOverwritten` it goes on
  until the two state machines differ at an index. `StateMachines.StateMachineSafety` proves that they
  never do in a run without any of these departures.
- **Reads of a compacted index.** A leader's first request, which names no entry before its own, passes the
  log check of any receiver. When it arrives again after the receiver compacted its log, the receiver reads
  index 1. `ServerRuns.AllowedExactly` says that this is the one way in which a request reads a compacted
  index, `ServerRuns.StaleRequestReadsCompacted` is a run that ends there. Commits never do
  (`ServerRuns.NeverReadsCompacted`).
- **Two pending configurations.** A leader that nothing was committed for writes its configuration, even if
  its log holds an uncommitted one, so a log can hold two; and a commit goes over to the configuration it
  commits, whatever the log holds above. `TwoChanges.FormerComesBack` is a run in which a leader that has
  gone over to the later of two goes back to the former. `Changes.TakeOverPutsInForce` and
  `Changes.CommitKeepsInForce` say exactly when a leader has the last one in force, and
  `Changes.LeaderHasLast` that it always has if it finds one at most when it takes over.
- **Compaction arithmetic.** `compact` subtracts the start index from the committed one, and does not end
  when it runs out of entries. `LogStore.CompactionEnds` says exactly when it ends;
  `LogStore.FreshStoreUnderflows` is a new store on which it fails.

## Model

| member | source | states |
|---|---|---|
| Safety.ElectionSafety | src/artos/server/election/election.rs:255-367 | in every run at most one election by votes succeeds in a term: two such elections of one term are the same step of the same server |
| Safety.VoteKept | src/artos/server/utils.rs:11-24 | in every run a server's term never decreases, and a vote given in a term is the vote it has as long as the term lasts |
| Safety.LeaderStateMachine | src/artos/server/election/election.rs:484-507 | in every run a leader has completed its election and stopped its timer, so its election timer cannot fire and the assertion against elections by a leader never fails |
| Safety.LateVoteIgnored | src/artos/server/channel/server.rs:265-319 | in every run a vote response leaves a leader as it is, or if it carries a higher term makes it a follower of that term |
| Safety.LogMatching | src/artos/server/replication/replication.rs:473-547 | in every run with voted leaders, two logs at any two moments that have an entry of one term at one index are equal up to it |
| Safety.LogsStartAtOne | src/artos/server/log/memory.rs:33-45 | without compaction and transfers every log of a run starts at index 1 and holds what the next commit reads |
| Safety.NothingAborts | src/artos/server/replication/replication.rs:473-484 | without compaction, in every run with voted leaders no assertion fails: no leader receives an append request of its own term, or starts an election, or has a peer's next index beyond its log |
| Safety.PeersInBounds | src/artos/server/replication/replication.rs:596-664 | in every run with voted leaders each peer of a leader is started, and its next index is between 1 and the end of the log |
| Safety.LeaderCompleteness | src/artos/server/replication/replication.rs:597-609 | an own-term commit of a leader whose tenure began with nothing matched is, with all before it, in the log of every leader of a later term |
| Safety.ElectionRecorded | src/artos/server/election/election.rs:335-366 | an election by votes is the first of its term, for the record of any run |
| QuorumCommits.QuorumBackedCommit | src/artos/server/replication/replication.rs:555-609 | every index such a leader passes to commit is in its log, and a strict majority accepted, each in some earlier step of this term, a request of this leader and then held the leader's log up to that index |
| QuorumCommits.AckOrigin | src/artos/server/replication/replication.rs:537-562 | whoever is recorded as having acknowledged an index accepted an append request of that term in some step |
| Core.CompletenessCore | src/artos/server/election/election.rs:406-414 | whoever wins a later election started with what a majority held, by the up-to-date check of the voters and the overlap of majorities |
| Core.UpToDateHas | src/artos/server/election/election.rs:406-409 | a candidate that passes a voter's log check has what the voter has of a term's leader, if the leaders in between have it |
| GroupSteps.StepKeepsInv | src/artos/server/channel/server.rs:173-319 | each kind of step of any server keeps the invariant of the group and only adds to the record |
| GroupSteps.CommitHeld | src/artos/server/replication/replication.rs:596-609 | the middle index is held by a majority, when matched indices stand for acknowledgements of this term |
| GroupSteps.AppendAlwaysAllowed | src/artos/server/replication/replication.rs:473-484 | the assertion that a leader gets no request of its own term holds, if leaders are voted for |
| CoreActions.AcceptKeepsLogs | src/artos/server/replication/replication.rs:908-940 | accepting a piece of a leader's log keeps all the invariants on logs and acknowledgements, however old the piece is |
| CoreActions.MergePoint | src/artos/server/replication/replication.rs:908-940 | merging a piece of a leader's log leaves the receiver's log, or the leader's log up to the end of the piece |
| CoreActions.WinKeepsLogs | src/artos/server/election/election.rs:354-364 | winning an election with a majority of votes keeps the invariants on logs |
| CoreActions.VoteKeepsLogs | src/artos/server/election/election.rs:371-419 | a vote for an up-to-date candidate keeps the invariants on logs |
| CoreActions.LeadKeepsLogs | src/artos/server/replication/replication.rs:324-339 | what a leader appends keeps the invariants on logs |
| Quorums.MajoritiesMeet | src/artos/server/election/election.rs:354 | two strict majorities of a group have a server in common |
| Medians.MedianIsLargestMajority | src/artos/server/replication/replication.rs:602-609 | for any number of servers an index is at most the middle one exactly when a strict majority reached it |
| Medians.DescendingCounts | src/artos/server/replication/replication.rs:607-608 | sorting in descending order keeps how many indices are at least any given one |
| UnvotedLeaders.ElectsExactly | src/artos/server/election/election.rs:298-367 | a vote response makes a server leader exactly when it decides the count, and in a pre-vote phase is also the last one |
| UnvotedLeaders.UnvotedExactly | src/artos/server/election/election.rs:348-364 | a vote response makes a server leader without votes exactly when the last answer decides a pre-vote phase, or any answer the count of a follower |
| UnvotedLeaders.TwoLeadersInOneTerm | src/artos/server/election/election.rs:627-640 | a run of six steps of two servers after which both lead term 0 |
| Applying.AppliedInOrder | src/artos/server/replication/replication.rs:1096-1149 | in every run each server hands its machine the indices 1, 2, 3 and so on up to its committed index, none twice, and the committed index never passes the quick one |
| Applying.AppliedForGood | src/artos/server/api.rs:472-476 | in every run what was handed over stays so and neither commit index decreases |
| Applying.AppliedIsLog | src/artos/server/replication/replication.rs:1096-1149 | in every run in which a server's log is never cut at or below its committed index, what it handed over is its log up to there, which is within the log |
| Applying.AloneCommitsAtOnce | src/artos/server/replication/replication.rs:890-906 | in every run of a group of one whose commits are not locked, all that the log has is committed |
| HandedOver.CommitHands | src/artos/server/replication/replication.rs:977-995 | a commit raises the quick index to the given one, and hands over each entry up to the lesser of it and the end of the log, unless locked |
| StateMachines.StateMachineSafety | src/artos/server/replication/replication.rs:1096-1149 | in every run of a group whose leaders are voted for and begin with nothing matched, whose leaders' new commits land on entries of their own term, and whose followers commit only what was verified, any two servers at any two moments have handed over the same entry at every index both have handed over |
| ServerRuns.NeverReadsCompacted | src/artos/server/log/memory.rs:106-117 | in every run of one server, through elections, changes of its group and compactions between any two handlers, the log still has what the next commit reads, and what was handed over is in order |
| ServerRuns.ProgressesOnly | src/artos/server/replication/replication.rs:1096-1149 | in every such run what was handed over stays so and neither commit index decreases |
| ServerRuns.AppliedIsRetainedLog | src/artos/server/log/memory.rs:292-315 | in every such run in which the log is never cut at or below the committed index except by compaction, what was handed over is the log up to there, as far as it is retained |
| ServerRuns.CompactsIsEvent | src/artos/server/log/memory.rs:169-179 | what a method of class `Server` compacts on top of its effect is one compaction of these runs |
| ServerRuns.AllowedExactly | src/artos/server/replication/replication.rs:473-547 | the assertions and reads of an append request hold exactly when it is not a first request, with entries, for a log without its start |
| ServerRuns.StaleRequestReadsCompacted | src/artos/server/replication/replication.rs:908-916 | a run of two events after which a request that comes again reads a compacted index |
| Applying.CommitsVerifiedOnly | src/artos/server/replication/replication.rs:537-551 | an accepted request makes its receiver commit only entries it verified if and only if, before it, commits are locked, or the commit indices or the log reach no further than what it verifies or was committed, or some entry of it conflicts with the log |
| Departures.FollowerCommitsUnverified | src/artos/server/replication/replication.rs:551 | a run of three servers with voted leaders in which a leader sends a request for one entry and the follower commits two, the second of an older term |
| Departures.AppliedEntryOverwritten | src/artos/server/replication/replication.rs:908-940 | a run of three servers with voted leaders after which a server has handed over at index 2 what neither its log nor its leader's machine has there |
| OlderTerms.OlderTermCommitLost | src/artos/server/replication/replication.rs:597-609 | a run of three servers with voted leaders in which a leader whose tenure began with nothing matched commits an entry of an older term, and the leader of a later term lacks it |
| StaleMatches.StaleMatchCommits | src/artos/server/replication/replication.rs:649-664 | a run of four servers with voted leaders in which a leader commits an entry of its own term that no majority has |
| CatchUp.CatchesUp | src/artos/server/replication/replication.rs:592-639 | in reliable rounds rejections come first, each with a lower next index and at most two more of them than the logarithm of the first, then acceptances, one to a batch, until the next index is the end of the log and the leader's log a prefix of the follower's |
| CatchUp.StepsBackToAgreement | src/artos/server/replication/replication.rs:617-629 | rejected rounds rewind the next index to where the logs agree, at the latest to 1 |
| CatchUp.StepsOnToEnd | src/artos/server/replication/replication.rs:1067-1079 | once the logs agree below the next index every round is accepted and moves it on by a batch |
| CatchUp.MergesLeaders | src/artos/server/replication/replication.rs:908-940 | a piece of the leader's log, merged into a matching log that agrees below it, leaves the leader's log up to the end of the piece |
| CatchUp.LogsMatch | src/artos/server/replication/replication.rs:486-489 | the logs of any two servers match at any time of a run with voted leaders, as catching up needs |
| Merges.MergeCases | src/artos/server/replication/replication.rs:908-940 | merging a batch leaves the log if nothing of the batch departs from it, extends it if the batch runs past its end, and otherwise cuts it at the first conflict and puts the rest of the batch there |
| Merges.MergeHolds | src/artos/server/replication/replication.rs:908-940 | after a merge the log has the batch's terms at the batch's indices, and what was below is as it was |
| Merges.MergeStale | src/artos/server/replication/replication.rs:908-940 | a request that comes again, or one from the same index that is a start of an earlier one, changes nothing |
| Server.Server.AppendEntries | src/artos/server/replication/replication.rs:908-940 | the deferred list of mappings and the truncating set_at come to merging the batch into the log |
| Server.Server.SetMappings | src/artos/server/replication/replication.rs:928-930 | setting the mappings one by one overwrites the log from the first conflict on |
| Server.Server.HandleAppendEntriesRequest | src/artos/server/replication/replication.rs:441-563 | the new state and the response are those of `Handlers.HandleAppendRequest` on the old state, up to compaction |
| Server.Server.HandleAppendEntriesResponse | src/artos/server/replication/replication.rs:565-642 | the peer's indices and rewind step, the commit of the middle index and whether more is sent are those of `Handlers.HandleAppendResponse` |
| Server.Server.CreateAppendEntriesRequest | src/artos/server/replication/replication.rs:1017-1094 | the request for a peer holds the entries from its next index on, at most a batch, or asks for a state transfer |
| Server.Server.Commit | src/artos/server/replication/replication.rs:977-995 | the new state is that of `Handlers.Commit` on the old one, up to compaction |
| Server.Server.LocalCommit | src/artos/server/replication/replication.rs:1096-1149 | the new state is that of `Handlers.LocalCommit`, of which only entries at most the committed index may be compacted |
| Server.Server.CommitEntries | src/artos/server/replication/replication.rs:1116-1136 | the loop commits one entry after another until the quick index or the end of the log |
| Server.Server.OnLeader | src/artos/server/replication/replication.rs:649-687 | a new leader adds a configuration if none was committed, restarts its peers at the end of the log, takes over uncommitted configurations and commits if alone |
| Server.Server.ApplyTransientState | src/artos/server/replication/replication.rs:815-856 | the nested loops come to applying all marks and then every entry above the least commit index |
| Server.Server.HandlePublishRequest | src/artos/server/replication/replication.rs:303-361 | a leader appends exactly the messages its session expects and answers with the session; others answer with the leader and the configuration |
| Server.Server.TermForLogIndex | src/artos/server/replication/replication.rs:997-1015 | the term at an index is 0 before the log, unknown when compacted, and else the entry's |
| Server.Server.HandleVoteRequest | src/artos/server/election/election.rs:255-296 | the new state and the response are those of `Handlers.HandleVoteRequest` on the old state, which is open to votes once the next voting time has come |
| Server.Server.HandleVoteResponse | src/artos/server/election/election.rs:298-367 | the new state and the votes asked for are those of `Handlers.HandleVoteResponse`, up to compaction |
| Server.Server.RequestElection | src/artos/server/election/election.rs:464-482 | a timeout starts a round of pre-votes, or alone the candidacy, unless the server catches up or is locked |
| Server.Server.BecomeCandidate | src/artos/server/election/election.rs:509-533 | a server that is no candidate enters the next term, votes for itself and asks for votes, or alone leads |
| Server.Server.BecomeLeader | src/artos/server/election/election.rs:484-507 | the election is completed, the timer stopped, sessions rebuilt and leadership taken over, as `Handlers.BecomeLeader` says |
| Server.Server.BecomeFollower | src/artos/server/election/election.rs:421-439 | the election is cleared, the timer restarted unless the server catches up, and all peers stopped |
| Server.Server.GracefulClose | src/artos/server/membership/leave.rs:299-311 | a closing leader with peers becomes follower and locks its elections; another server stays as it is |
| Server.Server.DelayElection | src/artos/server/election/election.rs:220-235 | the timer is restarted, elections unlocked, and no vote given before the least election time has passed |
| Server.Server.UpdateTerm | src/artos/server/utils.rs:11-24 | a higher term is taken over and the vote forgotten, and only then |
| Server.Server.CheckTerm | src/artos/server/channel/server.rs:303-319 | a response of a higher term makes the server follower of it and goes no further, nor does one of a lower term |
| Server.Server.HandleVoteResponseOf | src/artos/server/channel/server.rs:265-288 | a vote response of an unknown peer or another term is not handed on |
| Server.Server.HandleAppendResponseOf | src/artos/server/channel/server.rs:265-288 | an append response of an unknown peer or another term is not handed on |
| Server.Server.Reconfigure | src/artos/server/membership/membership.rs:186-271 | the loops over old and new servers add and remove peers as `Handlers.Reconfigure` says |
| Server.Server.CommitConfiguration | src/artos/server/membership/membership.rs:160-182 | a committed configuration is gone over to, and a server it names has caught up |
| Server.Server.HandleJoinGroupRequest | src/artos/server/membership/join.rs:260-394 | the new state and response are those of `Handlers.HandleJoin`: refused, joined already, sent for state, told to rewind, or added to a new configuration |
| Server.Server.HandleLeaveGroupRequest | src/artos/server/membership/leave.rs:350-401 | the new state and response are those of `Handlers.HandleLeave` |
| Server.Server.constructor | src/artos/server/replication/replication.rs:210-257 | a server starts with the term, vote and commit index it persisted and one peer for each other server, catches up if it is not among the servers, and clears a log that does not reach the committed index |
| NodeFacts.FirstStart | src/artos/server/replication/replication.rs:210-257 | with nothing persisted and an empty log this is the start of the runs |
| Membership.PeersTrackConfiguration | src/artos/server/membership/membership.rs:186-271 | in every run of a server through elections, joins, leaves, configuration commits, log cuts and compactions, in which no configuration names a server twice, its peers are the other servers of its configuration, each once, and a leader has all of them started |
| Membership.ReconfigureTracks | src/artos/server/membership/membership.rs:186-271 | going over to any configuration of distinct servers leaves one peer for each other server of it |
| Membership.InitialPeersAre | src/artos/server/replication/replication.rs:242-249 | a server starts with one peer for each other server of its configuration |
| Configurations.JoinQuorumsMeet | src/artos/server/membership/join.rs:348-356 | a strict majority of the configuration before a join request meets every strict majority of the one after |
| Configurations.LeaveQuorumsMeet | src/artos/server/membership/leave.rs:372-383 | a strict majority of the configuration before a leave request meets every strict majority of the one after |
| Configurations.PeersCounted | src/artos/server/election/election.rs:354 | a server counts majorities of as many as its configuration has, whenever its peers are those of its configuration |
| Configurations.ChangedServers | src/artos/server/membership/leave.rs:545-564 | once a leader changed the configuration, that one is in force, even if it commits at once and older ones with it |
| Configurations.TakeOverGoesOver | src/artos/server/replication/replication.rs:655-684 | a new leader goes over to the last configuration its log has above its quick index, writes its own if nothing was committed, and has a change under way exactly if there is one |
| Configurations.CommitGoesOver | src/artos/server/membership/membership.rs:160-182 | a commit goes over to the last configuration it commits, which ends a change, and ends catching up exactly if one of those it commits names the server |
| Configurations.LeaveExactly | src/artos/server/membership/leave.rs:350-401 | a leader without a change under way removes exactly the server that asks, appends that configuration and takes no other change meanwhile; otherwise nothing changes, and a server that is no member is told the configuration |
| Configurations.JoinExactly | src/artos/server/membership/join.rs:260-394 | a leader without a change under way adds exactly the server that asks, if it is new, its log agrees and ends near; otherwise nothing changes and it is told which of these it lacks |
| Changes.LeaderHasLast | src/artos/server/replication/replication.rs:667-684 | in every run of a server that finds at most one pending configuration when it becomes leader, a leader has the pending one in force, has one at most, and has a change under way as long |
| Changes.TakeOverPutsInForce | src/artos/server/replication/replication.rs:655-684 | taking over puts the last pending configuration in force if and only if nothing was committed before, or it lies above the quick index, or it is in force already |
| Changes.CommitKeepsInForce | src/artos/server/replication/replication.rs:1116-1136 | a commit keeps the last pending configuration in force if and only if it commits none, or leaves none, or commits one of the same servers last |
| TwoChanges.FormerComesBack | src/artos/server/membership/membership.rs:160-182 | a run of six events in which a leader of four servers commits a former configuration and is a leader of three, with the later one in its log |
| Continuity.ReconfigurePeers | src/artos/server/membership/membership.rs:222-258 | going over to a configuration keeps the peers of its servers as they are and adds exactly one for each server it adds but this one, which matches nothing and is looked at from the end of the log on |
| Continuity.MatchedOrigin | src/artos/server/replication/replication.rs:592-609 | in every run of a server, through joins, leaves and returns, what a peer is taken to match is what an accepted response of that peer said, when the server led the response's term |
| Continuity.CatchesUpUntilNamed | src/artos/server/membership/membership.rs:166-181 | in every run a server catches up exactly while neither its first configuration nor one it has committed names it |
| Continuity.TermsAndVotesLast | src/artos/server/utils.rs:11-24 | in every run of a server, whoever votes or not, terms never decrease and a vote lasts as long as its term |
| Continuity.LeaderNamesItself | src/artos/server/election/election.rs:484-507 | in every run a leader names itself as the leader |
| Restarts.HandsOverOnce | src/artos/server/replication/replication.rs:210-257 | through any number of restarts, with or without its log, a server hands over the indices 1, 2, 3 and so on up to its committed index, none twice, and its log has what the next commit reads |
| Restarts.VotesOnce | src/artos/server/election/election.rs:265-273 | through any number of restarts a server's term never decreases, it votes once in a term, and it takes back nothing it handed over |
| Restarts.RestartKeepsLog | src/artos/server/replication/replication.rs:253-257 | a restart keeps a log that reaches the committed index, and replaces another by an empty one that does |
| Continuity.LeavingForgets | src/artos/server/replication/replication.rs:701-710 | going over to a configuration forgets the clients' sessions exactly if the server leaves by it |
| Upkeep.TimerRuns | src/artos/server/election/election.rs:421-439 | in every run the election timer of a server that its group knew from the start is started exactly while it is no leader, and that of a server that catches up or leads is stopped |
| Upkeep.ClosedStandsBack | src/artos/server/election/election.rs:220-235 | in every run a leader that closed gracefully stands for no election before a request of its group, of its term or a later one, has reached it |
| Upkeep.StandsExactly | src/artos/server/election/election.rs:464-482 | at a timeout a server among others asks for pre-votes, in its own term, exactly if it neither catches up nor is locked; otherwise it stays as it is |
| Upkeep.LeaderIdOrigin | src/artos/server/replication/replication.rs:537-551 | in every run, whom a server takes to lead is itself or the sender of a request that it accepted |
| Upkeep.NoneLeftMarked | src/artos/server/replication/replication.rs:1151-1156 | in every run no session is left marked as committed between handlers |
| Exchange.VotesExactly | src/artos/server/election/election.rs:371-419 | says exactly which requests a server votes for, pre-votes included, and what each leaves of its term, vote and role |
| Exchange.SendsExactly | src/artos/server/replication/replication.rs:1017-1094 | a leader sends a peer what comes at its next index, a batch at most, with the known term of the entry before; or asks for a transfer, exactly if what the peer lacks is compacted or too much |
| Exchange.TransferExactly | src/artos/server/replication/replication.rs:486-547 | says exactly when a request begins a transfer; until that ends a server refuses every request, commits nothing, and names the end of its log |
| Exchange.RewindsToEnd | src/artos/server/replication/replication.rs:612-629 | a leader looks at a peer that begins a transfer from the end of the peer's log on, and sends no more |
| Exchange.SendsMoreExactly | src/artos/server/replication/replication.rs:630-639 | more is sent at once exactly if an accepted response leaves the peer short of the leader's end, or a refusal has no transfer to wait for |
| Exchange.StrangersIgnored | src/artos/server/channel/server.rs:265-288 | responses of a server that is no peer change nothing |
| Exchange.UnknownSenderIgnored | src/artos/server/replication/replication.rs:441-472 | a request of a server outside the group changes nothing, and the answer to it disturbs no leader of any term |
| VotersTell.VoteTells | src/artos/server/replication/replication.rs:798-813 | an accepted request that is no pre-vote, and no other, is answered with a mark of every session of the voter and with its quick index |
| VotersTell.HeardKnows | src/artos/server/replication/replication.rs:824-839 | a leader that applies what a voter told has in each client's session at least what the voter's had committed |
| VotersTell.LooksAbove | src/artos/server/replication/replication.rs:841-853 | such a leader looks at every entry of its log above the voter's quick index |
| VotersTell.MajorityTold | src/artos/server/election/election.rs:298-367 | in every run, whoever is elected by votes among others has, with a strict majority that voted for it in this term, in each client's session at least what each of them had committed when it voted |
| SessionRebuild.SessionsRebuilt | src/artos/server/replication/replication.rs:815-856 | a new leader's session has committed the highest of its own and all received ids, and for a client with an entry above the least commit index has received the id of its last entry |
| SessionRebuild.NewLeaderGoesOn | src/artos/server/replication/replication.rs:841-853 | if such a client's ids in the log are consecutive, they stay so under a new leader whatever the client sends |
| SessionRebuild.ApplyAllMarksHighest | src/artos/server/replication/replication.rs:825-839 | applying all states leaves each session's committed id the highest of its own and theirs |
| SessionRebuild.ReceivingStaysUnbroken | src/artos/server/replication/session.rs:112-122 | no sequence of messages makes a gap or a duplicate among a client's ids in the log |
| SessionFacts.LookupPut | src/artos/server/replication/session.rs:165-176 | updating one client's session leaves the session of every other client |
| ExactlyOnce.DeliveredExactlyOnce | src/artos/client/publish.rs:291-344 | in every run of a client and a leader the client's part of the log is a prefix of what was published, no message came ahead of its turn, callbacks were made for a prefix that the leader has committed, and no assertion on a response fails |
| ExactlyOnce.CallsOnlyGrow | src/artos/client/publish.rs:486-509 | in every run callbacks are only added, each once, in the order of publishing |
| ExactlyOnce.OwnRequest | src/artos/server/replication/replication.rs:324-350 | a request of the client, however late or often it comes, keeps its part of the log a prefix and is answered without an out-of-order mark |
| ExactlyOnce.OthersRequest | src/artos/server/replication/replication.rs:303-361 | requests of other clients do not touch the session and log entries of this one |
| ExactlyOnce.CommitCounts | src/artos/server/replication/replication.rs:1121-1127 | a commit leaves the session's committed id the number of the client's committed entries |
| ExactlyOnce.MarksExactly | src/artos/server/replication/session.rs:124-135 | a commit marks the session of a client exactly if it commits an entry of that client |
| ExactlyOnce.AnswerTellsCommitted | src/artos/server/replication/replication.rs:341-361 | the answer to a request brings the client exactly to what the leader had committed for it when it got the request |
| ExactlyOnce.SentIsRun | src/artos/client/publish.rs:317-344 | what a client sends is the run of published messages right after what it knows committed |
| Clients.WindowInRuns | src/artos/client/publish.rs:201-250 | in every run of a new client, with any answers but those that fail its assertion on the id last received, the queue is the run of ids from the committed to the next one, the last sent id is at least the committed one, and called back and queued messages are all that were published, in order |
| Clients.CalledForGood | src/artos/client/publish.rs:486-509 | in every such run callbacks are only added |
| Clients.RedirectedExactly | src/artos/client/publish.rs:211-250 | a refusal by the server it sends to that names another leader or none, and nothing else, makes a client leave it, take the one named as leader and go back to what is committed; another refusal and another server's answer only end the request |
| Clients.ConnectsAgain | src/artos/client/publish.rs:411-431 | in every run a client that was sent elsewhere and is connected later has connected since, and sent nothing before |
| Clients.ConnectedTo | src/artos/client/publish.rs:384-404 | in every run a connected client sends to the server it connected to last |
| Clients.OneAtATime | src/artos/client/publish.rs:177-184 | a connected client with no request under way sends the next batch, and no other sends anything |
| Clients.SendsMissing | src/artos/client/publish.rs:291-306 | after an answer that messages are missing the next batch begins right after what was received, or what is committed if that is more |
| Answers.SentToLeader | src/artos/server/replication/replication.rs:303-320 | a client that asks a server that does not lead goes over to the one this server names, if that is another |
| Answers.MissingIsSent | src/artos/server/replication/replication.rs:341-349 | after a leader's answer that messages are missing the client's next batch begins with the message the leader's session expects, or right after what is known to be committed |
| Answers.LostSessionRestarts | src/artos/client/publish.rs:291-299 | a leader without the client's session takes none of its later messages and says so, and a client that had something committed then asks to restart the session |
| Clients.WindowKept | src/artos/client/publish.rs:201-209 | each event of such a run keeps all this, and adds to what was published only what it publishes |
| Clients.RequestIsRun | src/artos/client/publish.rs:317-344 | every batch is the run of ids from the last sent one on, of at most the batch size in all |
| Clients.BatchIsLongest | src/artos/client/publish.rs:324-334 | a batch is as long as the size allows |
| Clients.NothingToSend | src/artos/client/publish.rs:336-343 | no request is made exactly when everything was sent or the next message alone is too long |
| Clients.RemovingKeepsWindow | src/artos/client/publish.rs:486-509 | committed messages are removed up to the committed id or the end of the queue, and the last sent id raised with them |
| Clients.RemovingKeepsHistory | src/artos/client/publish.rs:497-503 | each message removed is called back once |
| PublishQueue.PublishProtocol.Publish | src/artos/client/publish.rs:201-209 | the message is queued under the next id |
| PublishQueue.PublishProtocol.CreateRequest | src/artos/client/publish.rs:317-344 | the loop builds the batch of `Clients.NextMessages` |
| PublishQueue.PublishProtocol.HandleSucceededResponse | src/artos/client/publish.rs:211-250 | a response of another server than the leader is ignored, an accepted one applied, and a refusal disconnects unless it names the same leader |
| PublishQueue.PublishProtocol.HandleAcceptedPublishResponse | src/artos/client/publish.rs:291-306 | an out-of-order answer sets the last sent id back to what was received, or if the leader forgot the session asks to restart it, and committed messages are removed |
| PublishQueue.PublishProtocol.RemoveCommittedEntries | src/artos/client/publish.rs:486-509 | the loop removes and calls back as `Clients.RemoveCommitted` says |
| PublishQueue.PublishProtocol.OnLeaderDisconnected | src/artos/client/publish.rs:411-431 | a lost leader is forgotten and everything uncommitted is to be sent again |
| PublishQueue.PublishProtocol.Process | src/artos/client/publish.rs:177-184 | a connected client with no request under way sends its next messages |
| ClientSessions.ClientSessionManager.EnsureSession | src/artos/server/replication/session.rs:165-176 | the client's session is found, or a new one added at the end |
| ClientSessions.ClientSessionManager.Receive | src/artos/server/replication/session.rs:112-122 | the next id is received, a later one marked as out of order, an earlier one ignored |
| ClientSessions.ClientSessionManager.Commit | src/artos/server/replication/session.rs:124-135 | the committed id only rises, and the received one is at least it |
| ClientSessions.ClientSessionManager.Learn | src/artos/server/replication/replication.rs:829-838 | a session takes over a higher committed id without being called back for it |
| ClientSessions.ClientSessionManager.ClearCommitted | src/artos/server/replication/replication.rs:1143-1148 | no session is left marked as committed |
| LogStore.CompactionEnds | src/artos/server/log/memory.rs:292-315 | a compaction ends if and only if the start is at most the committed index and that is within the log or an entry is too young; its arithmetic fails exactly when the start is beyond |
| LogStore.CompactionDrops | src/artos/server/log/memory.rs:301-312 | a compaction drops only expired entries, never past the committed index, and as many as it can |
| LogStore.FreshStoreUnderflows | src/artos/server/log/memory.rs:269-278 | unlocking the compaction of a new store with one entry subtracts 1 from 0 |
| LogStore.CompactedKeeps | src/artos/server/log/memory.rs:83-117 | after a compaction every retained index has the entry, term and slices it had, and the end is the same |
| LogStore.MemoryLogStore.SoundCompacts | src/artos/server/log/memory.rs:292-315 | while the committed index lies within the log, which commits, appends, clears and cuts above it keep so, every compaction ends |
| LogStore.MemoryLogStore.Compact | src/artos/server/log/memory.rs:292-315 | the loop drops what `LogStore.Compacting` says, and nothing above the committed index |
| LogStore.MemoryLogStore.Commit | src/artos/server/log/memory.rs:169-179 | the index is committed, after which the log is what it was but for entries up to it |
| LogStore.MemoryLogStore.UnlockCompaction | src/artos/server/log/memory.rs:269-278 | compaction is unlocked and done, where it ends |
| LogStore.MemoryLogStore.Get | src/artos/server/log/memory.rs:83-104 | the entries between two indices |
| LogStore.MemoryLogStore.GetAt | src/artos/server/log/memory.rs:106-117 | the entry at an index |
| LogStore.MemoryLogStore.Last | src/artos/server/log/memory.rs:68-81 | the last entry, or a null entry of term 0 |
| LogStore.MemoryLogStore.Append | src/artos/server/log/memory.rs:129-141 | the entry is added at the end, whose index is returned |
| LogStore.MemoryLogStore.SetAt | src/artos/server/log/memory.rs:143-156 | the log is cut at the index and the entry put there |
| LogStore.MemoryLogStore.Clear | src/artos/server/log/memory.rs:158-167 | the log is empty and starts at the index, which is committed |
| LogStore.MemoryLogStore.Trim | src/artos/server/log/memory.rs:281-290 | the entries from the index on are removed |
| LogStore.MemoryLogStore.Read | src/artos/server/log/memory.rs:181-221 | what is written decodes to the longest run of entries from the index that fits, and the next index is where it ends, if that is not the end |
| LogStore.MemoryLogStore.Write | src/artos/server/log/memory.rs:223-248 | a well-formed chunk replaces everything from its start on; a malformed one changes nothing |
| LogStore.Parse | src/artos/server/log/memory.rs:226-232 | reading flags and entries in turn decodes the chunk, or fails |
| LogStore.DecodesChunk | src/artos/server/log/memory.rs:207-214 | the framing of flags and entries decodes to what was encoded |
| LogStore.TransferCompletes | src/artos/server/log/memory.rs:181-248 | reading and writing chunk after chunk, if every value fits, ends with the target's own entries below the start and the source's from there, after at most one chunk to an entry |
| LogStore.TransferLog | src/artos/server/log/memory.rs:181-248 | the loop that reads from one store and writes to another leaves the target with its own entries below the start and the source's from there |
| LogStore.TransferStuck | src/artos/server/log/memory.rs:192-203 | if some value does not fit, no number of chunks completes the transfer |
| LogStore.FittingIsLongest | src/artos/server/log/memory.rs:192-203 | a chunk holds as many values as the size allows |

## Left out

- State transfer between servers, its sockets, files, checksums and compression: in a run no transfer is asked for (`Group.Enabled`), and the class `Server` only notes that one is under way.
- Restarts in the runs of a group (src/artos/server/replication/replication.rs:213-257): the constructor of `Server` and module `Restarts` are about the life of one server; in the runs of a group no server restarts.
- Dispatching, threads, condition variables and wall-clock time: each handler is one atomic step, and timers and the retention clock are parameters or events.
- Requests that a handler sends while it runs are separate steps of a run, which may happen at any time or never; heartbeats, back-off, connections and the `in_progress` flag of a peer only restrict when.
- Peers and sessions are values in the lists of the server and of the session manager, updated in place there; the original shares them by `RefCell`, whose borrow checks are not modelled.
- Entries a leader publishes on its own behalf, and queries, subscriptions and the callbacks they get on a commit.
- Session time-outs and restart-session requests, which drop or reset what `ExactlyOnce` rests on; last access times.
- Flow control of the client, its stored configuration, and how it picks an endpoint: the server it connects to is a parameter of the event.
- The automatic removal of servers that time out, which may remove several at once.
- The side of a server that joins or leaves, and its rewinding of the join request.
- The binary formats of messages and entries, but for the framing of log chunks; the encoded length of a configuration is a parameter of its entry.
- Wrap-around of 64-bit counters: indices, terms and ids are unbounded, except that compaction says where its subtraction fails.
- Server.Server.Commit: the requests that a leader sends its peers when the quick index rises are steps of their own, which may happen at any time.
- Server.Server.OnLeader: the requests that a new leader sends its peers at once are steps of their own, which may happen at any time.
- Server.Server.HandlePublishRequest: the requests that a leader sends its peers after appending are steps of their own, which may happen at any time.
- Safety.NothingAborts: is about runs without compaction; with it, `ServerRuns.AllowedExactly` says when the assertion on a compacted index fails.
- Safety.LeaderCompleteness: is about own-term commits of tenures that begin with nothing matched, in runs with voted leaders; `UnvotedLeaders.TwoLeadersInOneTerm`, `OlderTerms.OlderTermCommitLost` and `StaleMatches.StaleMatchCommits` are runs that show what goes wrong without.
- Applying.AppliedIsLog: assumes that the log is not cut at or below the committed index, which `Departures.AppliedEntryOverwritten` shows can happen.
- StateMachines.StateMachineSafety: assumes the same of tenures and commits of leaders, and that followers commit verified entries only, for the same runs.
- CatchUp.CatchesUp: assumes that each request is answered before the next and that no state transfer is asked for.
