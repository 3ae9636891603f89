# A verified model of the Raft group and its key-value store

The repository keeps a key-value store on a group of replicas with the Raft protocol (Ongaro and Ousterhout,
"In Search of an Understandable Consensus Algorithm"). This project models that code in Dafny and proves what
the protocol and the store promise. `dafny verify dfyconfig.toml` checks everything.

## How the model is built

1. **The protocol.** `protocol.dfy` says what one node does on each event, as functions on its fields.
   `cluster.dfy` is the whole group: nodes, rounds of requests, and messages that may be delivered late, twice or
   never; nodes may crash at any moment and restart from what was persisted. `Cluster.Run` is a run of any length,
   with the merge rule for received entries as a parameter: `Overwrite`, the loops as written, or `Truncate`, Section 5.3.
   - For **every rule**: `elections.dfy` keeps a history of votes, leaders and requests beside each state,
     `chronicle.dfy` states what follows over runs, `counting.dfy` how far the commit index lags behind the successes,
     `tokens.dfy` the conservation of tokens, `sending.dfy` which entries a leader reads when it sends. `votes.dfy`,
     `answers.dfy` and `repeats.dfy` say of every vote, answer and client's write exactly when it is given, refused or
     appended, `notices.dfy` what a request tells of its sender, and `progress.dfy` what a majority can always do next.
   - For **Section 5.3**: `consensus.dfy` is a smaller machine with the history that the safety of logs rests on,
     `preservation.dfy` and `acceptance.dfy` show that its steps keep the invariant, `simulation.dfy` and
     `refinement.dfy` that every event of the group is some steps of that machine. `theorems.dfy`, `durability.dfy`,
     `application.dfy`, `tracking.dfy`, `presence.dfy` (which keys a store has), `guard.dfy` (which PUTs find their key,
     and what a leader has to check for it) and `reads.dfy` (when reads are up to date) state the results over runs.
   - For the **loops as written**: `as_written.dfy` says exactly which runs are runs under Section 5.3, and
     `counterexamples.dfy` has concrete runs, put together from `scripts.dfy`, of what goes wrong in the others.
     `checked_put.dfy` and `stale_read.dfy` are two longer ones, in which every merge is as Section 5.3 asks.
2. **The code of a node.** `raft_node.dfy` is the class with its fields updated in place and its loops; every method
   computes one function of `protocol.dfy`. `rounds.dfy` has the counters of a round and of an election,
   `backoff.dfy` and `RaftNode.LeaderSendAE` the recursive back-off between two node objects.
3. **The store.** `kv_store.dfy` is the array of 101 linked lists on the heap with the shadow map; `buckets.dfy`
   gives each operation as a function on values, and `store_laws.dfy` relates those to a plain map, over whole
   histories and through recovery. `group_store.dfy` follows the buckets of a node along a run of the group,
   rebuilt from their file at every restart.

A crash in the middle of a batch, `replay.dfy`, and the merge of received entries, `merge_laws.dfy`, have laws of
their own.

## Assumptions on scheduling

The code drops its lock between steps that belong together. The runs of the group assume:

- **R1, snapshot.** A request is built in the term and role in which its goroutine was started. The goroutines read
  the term, the log and `nextIndex` again later (`raft/election.go:99-117`, `raft/send_AEs.go:115-135`).
- **R2, private message.** Each peer gets its own copy of the message; the code shares one pointer
  (`raft/send_AEs.go:124-135`).
- **R3, truncation.** On a conflict the entry and all that follow it are deleted, as Section 5.3 asks. The code
  overwrites entry by entry (`raft/rpcs.go:139-157`). Only the results named above for Section 5.3 need this. For a run
  of the loops as written they hold if every delivery leaves no old tail (`AsWritten.SafeRun`), which is so exactly if
  the terms stay in order in all its logs (`AsWritten.SortedIffSafe`); otherwise two nodes can commit different entries
  (`Counterexamples.DifferentCommits`).
- **R4, leader-only steps.** Appending, and moving the commit index after a verdict, happen while the node leads the
  term of the proposal (`raft/client.go:67-78`, `raft/client.go:102-111`, `raft/states.go:96-101`).

The group may do more than the code does: an election may time out at any moment, `GiveUp` forgets a proposal
at any moment, a write need not wait until everything is applied (`raft/client.go:23-29`), a PUT or DELETE need
not have found its key (`raft/client.go:64-79`), heartbeats may start before the no-op has succeeded
(`raft/states.go:96-119`), and a reply may arrive after its requester has restarted, where the code has nobody left to
receive it (`raft/send_AEs.go:18-26`). What is proved of every run holds for all of these. The runs that are shown to
exist, in `progress.dfy` and the counterexamples, only use that an election may time out early (`Progress.Allowed`,
`Scripts.Fair`).
Where a theorem needs one of them excluded, it says so: the checks of a write are `Guard.Checked`, replies to what the
same process has sent are `Sending.OwnReply`. Tokens on `commits_ready` are received in the order in which they were sent.

## Where the code and its comments disagree

The model follows the code.

- `raft/rpcs.go:58-59` says that entries are handled as the paper describes; an old tail stays behind a conflict.
- `raft/rpcs.go:12-13` says that a request of a lower term is rejected; a vote already given to that candidate is
  repeated whatever the terms are (`raft/rpcs.go:37`), and the answer carries the term of the request, not of the voter.
- `raft/rpcs.go:113-114` says that the node is not a leader at that point; this is only so because no two nodes lead one term.
- `raft/rpcs.go:65-88` answers a stale request with success when the log already holds its entries.
- `raft/kv_store/hashmap.go:12-15` negates a negative difference, but the difference of two bytes is never negative.
- `raft/election.go:146` only looks at the counter when a vote arrives, so a group of one node elects nobody, and
  no round of it ever ends (`raft/send_AEs.go:137-150`).
- `raft/send_AEs.go:41-43` lowers `nextIndex` once per refusal, so when rounds to one peer overlap it can fall below 0
  (`Counterexamples.NextFallsBelow`), and the next round reads the log at a negative index. It never passes the end of
  the log (`Sending.NextNeverPassesTail`). A round of the model is only sent while `nextIndex` addresses the log.
- `raft/client.go:64` wants a PUT to find its key; the store that is asked knows nothing of entries that are appended
  and not yet applied, so the key can be gone when the PUT is applied, and a crash then leaves stores different for good
  (`CheckedPut.CheckedPutMisses`). `Guard.FoundIff` and `Guard.SafeInLog` say what would have to be checked.
- `raft/client.go:121-122` reads the store of the leader; the commit index can lag behind the writes that clients have
  been told of, and a confirmed read then misses them (`StaleRead.ReadMissesWrite`).
- `raft/kv_store/saved.go:53` takes an empty value for a tombstone, and nothing keeps a client from writing one
  (`raft/raft_server.go:44`): a node that restarts then answers otherwise than one that did not
  (`GroupStore.RestartAnswersAlike`, `GroupStore.EmptyValueDiverges`).
- `raft/states.go:99` moves the commit index past entries that are not its own proposals, and their clients are
  not recorded (`Counterexamples.ExLeaderForgets`).

## Model

| member | source | states |
|---|---|---|
| Chronicle.ElectionSafety | raft/rpcs.go:31-46 | under either merge rule, over a whole run with crashes, at most one node ever leads a term, although stepping down in the same term clears the vote and a repeated vote ignores the term |
| Theorems.RunLogMatching | raft/rpcs.go:119-157 | logs of any two nodes at any two moments that agree on the term at an index are equal up to it |
| Theorems.LogOrigin | raft/rpcs.go:139-157 | every log of a run that is not empty is a prefix of what the leader of its last term had appended by then |
| Theorems.LogsSorted | raft/states.go:76 | terms never decrease along a log and never exceed the node's own term |
| Counting.CommitInLog | raft/rpcs.go:171-179 | under either merge rule the commit index always lies inside the log and inside what is on disk, with the follower's clamp and the leader's counting |
| Theorems.CommitRises | raft/rpcs.go:159-179 | under Section 5.3 the follower's clamp never takes its commit index back |
| Theorems.StateMachineSafety | raft/rpcs.go:159-183 | whatever two nodes have committed up to an index, at any two moments, is the same |
| Theorems.CompleteLeader | raft/states.go:72-103 | everything committed in a term is in the log of every leader of a later term, whether seen before or after the commit |
| Votes.GrantedIff | raft/rpcs.go:14-56 | a vote is granted if and only if this candidate has it already, or it is free in the term of the request and the candidate's log ends in a higher term than the voter's, or in the same term and no earlier; what is left of the voter in either case |
| Votes.NoOlderTotal | raft/rpcs.go:37-39 | of any two logs one is up to date for the other, and both only if they end alike |
| Votes.NoOlderTransitive | raft/rpcs.go:37-39 | that relation is transitive |
| Votes.NoOlderThanPrefix | raft/rpcs.go:37-39 | a log in term order is up to date for each of its beginnings, and no proper beginning is for it |
| Votes.SomeoneIsGranted | raft/rpcs.go:37-39 | among any nodes there is one whose request every other with a free vote in that term grants |
| Votes.ElectedIff | raft/election.go:122-152 | with a vote of its term a candidate leads if and only if its voters are more than half of the group, for any number of nodes; a higher term makes it a follower of exactly that term, and any other reply changes nothing |
| Votes.RepliesElectIff | raft/election.go:122-152 | after any replies in one term, in any order and repeated, the candidate leads if and only if those that granted, with itself, are more than half |
| Votes.ElectionCounted | raft/election.go:82-152 | that is the case in which the shared counter of `Rounds.CountVotes` counts an election |
| Votes.NoWaitingWinner | raft/election.go:146-149 | in no state of any run does a candidate hold more than half of the votes |
| Votes.QuorumIff | raft/send_AEs.go:137-143 | a round of the group reaches its quorum if and only if the leader and those that accepted it are n/2 + 1, the case in which `Rounds.CountReplies` reports a success |
| Answers.StaleAnswerIff | raft/rpcs.go:65-99 | a request of a lower term changes nothing and is answered with the higher term, with success if and only if the log has an entry of the right term in front of the sent ones and at the place of each of them |
| Answers.StaleSuccess | raft/rpcs.go:65-88 | under Section 5.3 such a success means that the follower's log is the sender's, at a moment when it led that term, up to the end of the request |
| Answers.AnswerIff | raft/rpcs.go:102-198 | any other request is a success if and only if the entry in front of the sent ones is there; the node is then in the request's term, as a follower with a free vote if it was behind or a candidate, and a refusal changes nothing else |
| Answers.AcceptedLearns | raft/rpcs.go:159-185 | after a success under either merge the node knows of the commits that its log reaches, if there are new ones, with one token and the client of the request, and otherwise of none, and all is in its file |
| Answers.AcceptedMeans | raft/rpcs.go:119-157 | under Section 5.3 a log that held everything sent stays as it is, and any other is cut off behind it |
| Answers.HigherTermMeans | raft/send_AEs.go:34-76 | a leader that gets a refusal of a higher term, and any node that gets a success of one, is a follower in exactly that term with a free vote, everything else as before |
| Answers.OwnTermMeans | raft/send_AEs.go:28-82 | any other answer only moves nextIndex of that peer: behind the round, one back, or not at all if a refusal finds no leader |
| Answers.RestartMeans | raft/raft_node.go:77-164 | what a restart keeps, what it starts anew, and what can be missing of a leader's log |
| Answers.TermsComeFromTimeouts | raft/states.go:37-45 | over every run and either merge, every term of a node, a file or a packet is 0 or one that a time-out of the run began |
| Notices.RequestSaysWhatWas | raft/send_AEs.go:117-133 | over every run and either merge, the commit index and the latest client of a request are those its sender had at one moment at which it led that term |
| Repeats.AppendedIff | raft/client.go:53-61 | a leader can append a client's operation unless it is a POST or PUT that it has as the client's last one while this client is the last that wrote; a DELETE always |
| Repeats.RemembersIff | raft/client.go:39-61 | a node goes on remembering an operation in this way, step by step, exactly until a restart, another client's write, a success for another operation of this client, or commits from a request that names another client or brings another operation of this one |
| Repeats.LearnedIff | raft/rpcs.go:161-179 | after learning of commits a node remembers an operation if and only if the request names the client and its last entry among them, or the table if there is none, is that operation |
| Repeats.RepeatRefused | raft/client.go:39-61 | over every run: once a leader has appended a client's POST or PUT with success, it does not append it again while it leads, no other client writes and no other operation of this client has a late success |
| Repeats.LearnerRefuses | raft/rpcs.go:161-179 | nor does a node that has learned of it from a request that names the client, when it is elected later |
| Progress.MajorityElects | raft/election.go:55-152 | from every state of every run of two or more and under either merge, any majority can on its own elect one of its members in a new term and have its no-op succeed, once those of its members that lead have restarted |
| Progress.MajorityServes | raft/client.go:23-143 | and one that restarts can go on to take any client's POST to success and to serve a read, with all waits of the code, whatever crashes and early stops came before |
| Progress.Exchange | raft/send_AEs.go:12-91 | in the group, however far back the logs differ, an exchange with a peer of no higher term ends with a counted success, and nothing happens elsewhere |
| Progress.NoOpAgain | raft/states.go:89-117 | a leader whose no-op has not succeeded can send it again with all it has appended since, to success |
| Chronicle.ConfirmedRead | raft/client.go:134-143 | under either merge rule, when a read is served, nobody had become leader of a higher term when its round of heartbeats began |
| Reads.ReadSeesWrite | raft/client.go:121-143 | a served read sees every write that any leader reported as successful before the read began, if its leader had committed everything before its no-op when elected and has had its successes without a gap |
| Reads.ReadsGoForward | raft/client.go:121-143 | nor does such a read go back behind an earlier one, whichever leader served that |
| Reads.CommittedIffGapless | raft/client.go:104-113 | once a leader has had a success, its successes are all committed if and only if it has no such gap |
| StaleRead.ReadMissesWrite | raft/client.go:121-143 | a run of two nodes without a crash, in which every write has waited, and a confirmed read misses a write that was reported as successful before it began |
| Durability.CommittedIsDurable | raft/client.go:106-113 | what any node has committed is in the files of a majority at every moment from then on |
| Durability.SuccessfulWriteIsDurable | raft/client.go:104-113 | a write reported as successful is in the files of a majority ever after, even while the commit index lags behind it |
| Durability.LaterLeadersHaveIt | raft/rpcs.go:37-39 | every leader of a later term, at any moment, has a write that was ever reported as successful |
| Chronicle.LeaderAppendOnly | raft/client.go:95-96 | under either merge rule, between two moments at which a term is led, its leader's log has only grown |
| Elections.NoSecondReign | raft/election.go:141-151 | under either merge rule a majority of votes for a candidate means that its term has no leader yet |
| Elections.Goes | raft/rpcs.go:14-198 | every event under either merge rule keeps what the history says of terms, votes, leaders, rounds and requests |
| Durability.PrefixAfterAccept | raft/rpcs.go:120-179 | after an accepted request of term T the follower's whole log is a prefix of what T's leader has at any later moment |
| Counting.CommitNeverPassesQuorum | raft/states.go:96-103 | under either merge rule, however the no-op and concurrent writes interleave, the leader's commit index is below its no-op or not above a proposal that n/2 + 1 replicas accepted |
| Counting.CountsOneMore | raft/client.go:106-113 | one more counted success keeps the commit index exactly where it was at the election plus the number of successes |
| Counting.CommitIsTally | raft/client.go:106-113 | under either merge rule, in every state of every run, a leader's commit index is the one of its election plus the number of its proposals that have succeeded, each of which a quorum accepted |
| Counting.ReignCounts | raft/states.go:96-103 | from the election on, as long as the node leads, the commit index rises by exactly the number of successes |
| Counting.NewestCommittedIff | raft/client.go:104-113 | a leader's newest success is committed if and only if everything before its no-op was committed at its election and every proposal up to that success has succeeded |
| Preservation.CountedProposal | raft/client.go:109 | after one more success some quorum-stored proposal lies at or above the new commit index |
| Preservation.NoSecondLeader | raft/election.go:141-151 | a majority of votes for a candidate means that no other node has led its term |
| Preservation.GrantKeeps | raft/rpcs.go:37-46 | granting a vote keeps the whole invariant of the protocol |
| Preservation.LeadKeeps | raft/states.go:48-87 | becoming leader with a no-op keeps the whole invariant |
| Preservation.CommitKeeps | raft/client.go:108-113 | moving the commit index by one after a verdict keeps the whole invariant |
| Preservation.RestartKeeps | raft/storage.go:106-141 | a crash and a restart from the persisted fields keep the whole invariant |
| Acceptance.AcceptedPrefix | raft/rpcs.go:120-157 | an accepted request turns the log into a prefix of the leader's that reaches what was sent and loses nothing of this term |
| Acceptance.AcceptKeepsCommitted | raft/rpcs.go:139-157 | truncating a conflict never touches committed entries |
| Acceptance.AcceptKeeps | raft/rpcs.go:119-185 | accepting a request and clamping the commit index keep the whole invariant |
| Safety.LeaderCompleteness | raft/rpcs.go:37-39 | what a quorum stored in a term, every later leader started with, by induction over the later terms |
| Refinement.SimStep | raft/rpcs.go:14-198 | every event of the group, message deliveries, rounds, crashes, is matched by steps of the protocol machine |
| Refinement.Answer | raft/rpcs.go:102-188 | the follower's side of a request of its own or a higher term is a few protocol steps, with an acknowledgement when it succeeds |
| Refinement.AnswerVote | raft/rpcs.go:14-56 | answering a vote request is a few protocol steps, including the repeated vote of another term |
| Refinement.SimElection | raft/states.go:48-87 | counting a majority makes a leader the protocol machine allows |
| Chronicle.RetryInBounds | raft/send_AEs.go:41-68 | under either merge rule, a refused request of the leader's own term starts at index 0 or later and carries exactly the leader's entries, so the retry reads no index outside the log |
| Sending.ReadsInsideIff | raft/send_AEs.go:115-130 | every index that building the first request reads lies inside the log if and only if nextIndex is between 0 and the length of the log |
| Sending.FirstRequestInBounds | raft/send_AEs.go:115-130 | under either merge rule this always holds for a leader if its exchanges with the peer do not overlap and no reply of an older term arrives |
| Sending.NextNeverPassesTail | raft/send_AEs.go:73-82 | for the loops as written, through any restarts, overlapping rounds and late replies of older terms, nextIndex never passes the end of the log, if a process only receives replies to what it sent |
| Sending.OwnTermNextInside | raft/send_AEs.go:73-82 | under either merge rule, through any restarts and overlapping rounds, a leader's nextIndex never passes the end of its log if only replies of its own term reach it |
| Counterexamples.NextFallsBelow | raft/send_AEs.go:43 | a run of two nodes to a leader whose nextIndex is -1, after the round of its no-op and a read check beside it were both refused |
| MergeLaws.OverwritingExact | raft/rpcs.go:122-157 | the loops as written, entry by entry: old log up to the first term mismatch, then the sent entries, then any old tail; length max(old, prev + 1 + sent) |
| MergeLaws.OverwritingMeetsTruncating | raft/rpcs.go:139-157 | the loops do what Section 5.3 asks if and only if there is no mismatch or the entries reach the old end |
| MergeLaws.MergeTwice | raft/rpcs.go:119-157 | delivering the same request twice is delivering it once, under either rule |
| MergeLaws.MergeCommutes | raft/rpcs.go:119-157 | two requests of one leader's growing log leave the same log in either order |
| MergeLaws.MergeNeverShortens | raft/rpcs.go:119-157 | an accepted request never shortens the match with the leader and extends it to the end of the slice |
| MergeLaws.SliceMerged | raft/rpcs.go:122-157 | a slice inside the common part changes nothing, any other leaves exactly the leader's log up to its end |
| Merging.AgreedStops | raft/rpcs.go:125-134 | the comparison loop stops only at a mismatch or at an end |
| AsWritten.SafeRun | raft/rpcs.go:139-157 | a run of the code as written whose deliveries leave no old tail is a run under Section 5.3 |
| AsWritten.NextDelivery | raft/rpcs.go:139-157 | after any run under Section 5.3, a delivery as written keeps the log in term order if and only if it leaves no old tail |
| AsWritten.SortedIffSafe | raft/rpcs.go:139-157 | in a run of the loops as written, the terms stay in order in every log at every moment if and only if every delivery leaves no old tail |
| AsWritten.MatchingIffSafe | raft/rpcs.go:139-157 | in such a run Log Matching holds between all logs of all moments if and only if every delivery leaves no old tail |
| AsWritten.TailMismatches | raft/rpcs.go:139-157 | any other delivery breaks Log Matching: the log before it and after it agree behind the sent entries and differ below |
| Counterexamples.OverwritingBreaksOrder | raft/rpcs.go:149-151 | a run of three nodes after which a log of the code is out of order |
| Counterexamples.DifferentCommits | raft/rpcs.go:149-179 | a run of three nodes after which two of them have committed different entries at one index |
| Replay.ReplayHarmlessIff | raft/raft_node.go:193-299 | applying a batch again after any crashes gives the store of one pass if and only if no missed PUT is followed by the POST of its key with another value and no later PUT or DELETE |
| Replay.PutsHitNoHazard | raft/raft_node.go:206-297 | a batch in which every PUT finds its key in the first pass holds no such hazard |
| Replay.MissedPut | raft/kv_store/restaccess_key_value.go:124-134 | the smallest batch whose second pass changes the store: a PUT that misses, and the POST of its key |
| Guard.AllHitIff | raft/client.go:95-96 | over a run, every PUT of every log finds its key in the result of the entries before it, at every moment, if and only if every PUT found it in the result of the leader's whole log when it was appended |
| Presence.KeysFollowLog | raft/raft_node.go:193-299 | in every state of every run, whatever crashes, early stops and values there were, a store with everything committed applied to it has no key that the log in order does not give, and all of them if no recovery met an empty value |
| Guard.FoundIff | raft/client.go:64-79 | a key found in the leader's store with all unapplied entries applied to it is in the result of its whole log; if no recovery of the node met an empty value, exactly those keys are |
| Guard.FoundIffFilled | raft/client.go:64-79 | so the test is exact on a node that has committed no empty value |
| Guard.SafeInLog | raft/client.go:64-96 | one PUT that passed the check of the code, when no entry appended and not yet applied deletes its key, finds its key in the whole log, with nothing asked of other writes, early stops or values |
| Guard.SafeWritesHit | raft/client.go:64-96 | so if each PUT was safe in this sense, every PUT of every log finds its key, in every state of every run |
| Guard.AllHitIffFound | raft/client.go:64-96 | over a run in which no leader that appends a PUT has lost an empty value, every PUT of every log finds its key at every moment if and only if each PUT passed the test of `Guard.FoundIff` |
| Guard.FoundPutsHeal | raft/raft_node.go:160-164 | if each PUT passed that test, every batch that a node ends leaves an exact store, whatever crashes came before, as long as no batch of this node stopped early and it has committed no empty value |
| Guard.SafeWritesHeal | raft/raft_node.go:160-164 | the same if each PUT was safe |
| CheckedPut.CheckedPutMisses | raft/client.go:64-79 | with the check of the code alone this fails: a run of two nodes in which every write waited and passed the check and one node crashed in a batch, and both have applied the same five entries to different stores |
| Tokens.TokensInBounds | raft/raft_node.go:193-202 | under either merge rule, over every run, applied plus announced entries never exceed the committed ones, so the slice to apply is in bounds |
| Tokens.TokensConserved | raft/rpcs.go:161-181 | under either merge rule, while no batch of the node halts, applied plus announced equals committed, crashes included |
| Application.StoreFollowsLogIff | raft/kv_store/saved.go:49-57 | without a crash inside a batch, the store is the in-order result of the applied entries in every state if and only if no restart met an empty value |
| Application.StoreFollowsLog | raft/raft_node.go:206-297 | so it is, through any restarts, if no applied entry writes an empty value |
| Application.ReplayHeals | raft/raft_node.go:160-164 | after any crashes, the next batch that runs to its end leaves the store exact, if no batch so far held a hazard and no committed value is empty |
| Application.StoresAgree | raft/raft_node.go:181-303 | exact stores of two nodes that have applied equally far are equal, at whatever moments |
| Tracking.TableFollowsLog | raft/rpcs.go:159-179 | from any moment on, as long as a node neither crashes nor leads, its table changes by exactly the operations of the entries it learns to be committed, in their order |
| Tracking.TableIsLatest | raft/rpcs.go:165-169 | a client's entry is then the operation of its last entry learned since, and as it was if there is none |
| Tracking.TrackSays | raft/rpcs.go:165-169 | one pass of the loop over a stretch of the log records each client's last operation there and leaves the others alone |
| Tracking.EmptyAtStart | raft/raft_node.go:81-83 | a life begins with an empty table |
| Tracking.LeaderTableIff | raft/client.go:109-110 | a success moves the leader's table as a follower's would if and only if the proposal and the entry that its commit index passes are of the same client and operation, or the table already holds what both would write |
| Counterexamples.ExLeaderForgets | raft/states.go:98-102 | a run of two nodes after which a follower that has led knows a client whose entry it has not committed, and not one whose entry it has |
| Rounds.CountReplies | raft/send_AEs.go:98-153 | at most one verdict per round, whatever the order; true iff n/2 + 1 accept, false iff (n + 1)/2 fail; exactly one when all peers have finished and n >= 2 |
| Rounds.SuccessfulRoundsMeet | raft/send_AEs.go:139-143 | two successful rounds share a replica |
| Rounds.CountVotes | raft/election.go:82-152 | a candidate becomes leader at most once per election, exactly when more than half grant and there is a peer |
| Backoff.BackTo | raft/send_AEs.go:41-68 | the back-off ends at the last index not above the first one where the logs have the same term, or at -1 |
| Backoff.OverwrittenIsLeaders | raft/rpcs.go:119-157 | under Log Matching even the loops as written leave the leader's log up to the end of what was sent |
| Backoff.TruncatedIsLeaders | raft/rpcs.go:119-157 | with truncation the follower then has nothing else, unless it already held all of it |
| Backoff.Refused | raft/send_AEs.go:28-71 | after a refusal the retry again carries the leader's entries from one index lower, nextIndex matches it, and the follower's log is unchanged |
| RaftNodes.RaftNode.LeaderSendAE | raft/send_AEs.go:12-91 | the recursion ends, nextIndex is upper + 1, the follower is what the one accepted request makes of it and equals the leader up to upper, even if nextIndex had already passed upper |
| RaftNodes.RaftNode.AppendEntries | raft/rpcs.go:60-198 | the method with its loops computes the answer and the new fields of the step, of which `Answers.StaleAnswerIff`, `Answers.AnswerIff`, `Answers.AcceptedLearns` and `MergeLaws.OverwritingExact` say what they are |
| RaftNodes.RaftNode.Scan | raft/rpcs.go:122-134 | the first loop finds how many sent entries agree by term |
| RaftNodes.RaftNode.Overwrite | raft/rpcs.go:139-157 | the second loop leaves the log whose entries `MergeLaws.OverwritingExact` describes |
| RaftNodes.RaftNode.LearnCommit | raft/rpcs.go:159-183 | commit index clamped to the log, latest client taken over, table updated for exactly the newly committed entries, one token sent |
| RaftNodes.RaftNode.RequestVote | raft/rpcs.go:14-56 | the method computes the vote and the new fields of the step, of which `Votes.GrantedIff` says what they are |
| RaftNodes.RaftNode.BuildVoteRequest | raft/election.go:102-115 | the request has the candidate's term and the index and term of its last entry |
| RaftNodes.RaftNode.HandleVote | raft/election.go:122-152 | counting an answer gives the fields of the step, of which `Votes.ElectedIff` says what they are, and the size of the set of voters |
| RaftNodes.RaftNode.ToFollower | raft/states.go:11-19 | the vote is cleared and the new fields are persisted |
| RaftNodes.RaftNode.ToCandidate | raft/states.go:37-45 | the term rises by one with a vote for itself, persisted |
| RaftNodes.RaftNode.ToLeader | raft/states.go:48-87 | nextIndex is the old log length for every peer and the no-op is appended and persisted |
| RaftNodes.RaftNode.PersistToStorage | raft/storage.go:143-153 | exactly the five fields are stored |
| RaftNodes.RaftNode.Restart | raft/raft_node.go:77-164 | a restart has the stored fields, an empty table, and one token for the commits not yet applied |
| RaftNodes.RaftNode.BuildRequest | raft/send_AEs.go:117-133 | the request starts at nextIndex and carries everything up to the tail of the round |
| RaftNodes.RaftNode.HandleReply | raft/send_AEs.go:26-89 | a reply counts, fails or leads to a retry, with the fields of the step, of which `Answers.HigherTermMeans` and `Answers.OwnTermMeans` say what they are |
| RaftNodes.RaftNode.WriteCommand | raft/client.go:23-96 | one attempt: it waits while something committed is not applied; then only a leader appends, and refuses a repeated operation of the latest client except DELETE, and a PUT or DELETE for which a confirmed read answers that there is no such key, as it also does for the sentinel; an unconfirmed read refuses nothing |
| RaftNodes.RaftNode.CommitProposal | raft/client.go:106-113 | the commit index moves by one, the table records the client's operation, one token of size one |
| RaftNodes.RaftNode.ApplyToStateMachine | raft/raft_node.go:193-299 | the store is the in-order result of the applied part of the batch, and lastApplied moves by what was applied |
| Buckets.ExecuteMeansApply | raft/kv_store/restaccess_key_value.go:59-156 | an operation on the buckets and the shadow map does what it does to a map if and only if it is not a POST on a key whose value is the sentinel |
| StoreLaws.StoreFollowsMapIff | raft/kv_store/hashmap.go:23-76 | through a whole history the store stands for the map at every point if and only if no POST meets the sentinel as the value of an existing key |
| StoreLaws.PlainHistory | raft/kv_store/hashmap.go:23-76 | it does for every history that never writes the sentinel |
| StoreLaws.GetTells | raft/kv_store/hashmap.go:32-47 | GET returns the map's value, and tells missing from present if and only if the value is not the sentinel |
| StoreLaws.DeletedKeyComesBack | raft/kv_store/restaccess_key_value.go:65-70 | with the sentinel as a value, a deleted key can be updated and read again |
| StoreLaws.RecoveredMeans | raft/kv_store/saved.go:49-57 | rebuilding from the file in any order gives unique keys in the right buckets and the map without the tombstones |
| StoreLaws.RecoveryRoundTrip | raft/kv_store/saved.go:49-57 | recovery brings the map back if and only if it holds no empty value |
| StoreLaws.HistoryAcrossRecovery | raft/kv_store/saved.go:31-66 | a history, a restart and another history, without empty and sentinel values, end in the map of both histories |
| KvStores.HashOf | raft/kv_store/hashmap.go:8-20 | the loop computes the hash on wrapping bytes |
| Buckets.Hash | raft/kv_store/hashmap.go:8-20 | the index is always below 101 |
| KvStores.LinkedList.Add | raft/kv_store/linkedlist.go:33-44 | the pair is put in front, the list stays acyclic, Size stays its length |
| KvStores.LinkedList.Remove | raft/kv_store/linkedlist.go:47-70 | exactly the first pair with the key is unlinked, and Size falls by one if there was one |
| KvStores.LinkedList.Find | raft/kv_store/hashmap.go:37-46 | the pointer walk ends at the first node with the key or at the end |
| KvStores.LinkedList.Update | raft/kv_store/hashmap.go:54-65 | exactly the first pair with the key gets the value |
| KvStores.Store.Push | raft/kv_store/hashmap.go:23-29 | the pair is put in front of the bucket of its hash, all other buckets are as before |
| KvStores.Store.Get | raft/kv_store/hashmap.go:32-47 | the newest value of the key, or the sentinel |
| KvStores.Store.Put | raft/kv_store/hashmap.go:50-66 | true iff the key is there, and then its newest value is replaced |
| KvStores.Store.Delete | raft/kv_store/hashmap.go:69-76 | true iff the key is there, and then its newest pair is removed |
| KvStores.Store.PostHandler | raft/kv_store/restaccess_key_value.go:59-76 | buckets and shadow map change together, only when the lookup returns the sentinel |
| KvStores.Store.PutHandler | raft/kv_store/restaccess_key_value.go:119-135 | buckets and shadow map change together, only when the key is there |
| KvStores.Store.DeleteHandler | raft/kv_store/restaccess_key_value.go:148-162 | the pair goes and a tombstone stays in the shadow map, only when the key was there |
| KvStores.Store.Recover | raft/kv_store/saved.go:31-66 | walking the file in any order, the heap structure is valid and stands for the file without its tombstones |
| GroupStore.NodeStoreIsMap | raft/initial_setup.go:22-28 | in every state of every run, with crashes inside batches and any number of restarts, a node's buckets stand for its map, if nothing it has committed writes the sentinel |
| GroupStore.BucketsExist | raft/kv_store/saved.go:51-57 | such buckets exist along every run, whatever order the file is walked in |
| GroupStore.RestartAnswersAlike | raft/kv_store/saved.go:53-55 | at a restart the node goes on answering every GET as before if and only if no value in its store is empty |
| GroupStore.EmptyValueDiverges | raft/kv_store/restaccess_key_value.go:124-134 | with an empty value, a later PUT succeeds on a node that was not restarted and misses on one that was |
| GroupStore.NodesAnswerAlike | raft/kv_store/restaccess_key_value.go:80-101 | two nodes with exact stores that have applied equally far answer every GET alike, at whatever moments and after any restarts, if the sentinel was never written |
| GroupStore.FoundPutsAnswerAlike | raft/kv_store/restaccess_key_value.go:80-101 | so they do whenever both have ended a batch, however often they crashed inside one, if each PUT passed the test of `Guard.FoundIff` and neither of the two had a batch stop early or committed an empty value |

## Left out

- gRPC, HTTP servers, routing, form parsing, address strings and logging: a request is a value and a call is a step; `raft/raft_server.go` only passes requests on.
- Locks, channels, contexts, tickers, timeouts, and with them liveness and deadlock: steps are atomic and time-outs are nondeterministic. `progress.dfy` says what a majority can do, not that it will. `HeartBeats` is the event that starts a heartbeat round.
- gob encoding and files: persistence is an atomic copy of the five fields, or of the shadow map. A file that lacks one of the five keys ends the program (`raft/storage.go:112-138`) and is taken for no file here.
- `int32` overflow: terms and indices are unbounded; byte wrap-around in the hash is modelled.
- `matchIndex`, which is written and never read, and the leader's address.
- Linearizability as one definition over histories of calls: a write is taken to end with its success and a read to begin with its round; `Reads.ReadSeesWrite` and `Reads.ReadsGoForward` give its two orders between a read and what came before.
- A first request built while `nextIndex` lies outside the log (`raft/send_AEs.go:117-130`), which ends the program with an index error: such a send is no event of the group, and neither is a retry after the term has changed (R1).
- Initial set-up, `main.go`, the program's own test helpers and the generated protobuf code.
- RaftNodes.RaftNode.LeaderSendAE: the follower is another object that answers every call at once, and the leader does not change meanwhile; lost calls and changing leaders are in the runs of the group.
- Rounds.CountReplies: the goroutines' increments are taken in the order in which they take effect, as the atomic counter makes them; the work inside an exchange is in the runs of the group.
- RaftNodes.RaftNode.WriteCommand: the lock that is dropped between two attempts, and around the read, is not part of the method; the store that the read before a PUT or DELETE is answered from, and whether a majority confirmed the read, are parameters. In the runs of the group the check is `Guard.Checked`.
- RaftNodes.RaftNode.ApplyToStateMachine: the HTTP calls to the store are applications of the operation to a map, and a call that fails stops the batch without having reached the store.
- Tracking.TableFollowsLog: says nothing about the steps of a leader, whose table is another one (`Tracking.LeaderTableIff`).
- Application.StoreFollowsLog: does not cover a crash inside a batch; `Application.ReplayHeals` does, from the next whole batch on.
- Chronicle.ConfirmedRead: says who led when the round began; what the read sees is in `reads.dfy`.
