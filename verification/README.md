# Three distributed protocols, modelled and proved

The repository contains a Raft library (`raft-demo/src/raft`), a distributed bank with two-phase commit
(`transactions-demo/server`) and an ordered multicast (`multicast-demo/types`). Each is modelled here twice:

- as a **world**: the state of all nodes, the messages in flight and some history, with a function that gives the state
  after each step. An inductive invariant is shown to hold initially and to be kept by every step, and the theorems are
  statements about every state, or every pair of moments, of every run;
- as **classes** with the fields of the Go structs, whose methods update them in place with the loops of the source.
  Each method is proved to leave the object in the state that the function used by the world's steps computes.

`dafny verify dfyconfig.toml` checks everything.

| part | files |
|---|---|
| Raft | `RaftTypes`, `RaftLog` (merge), `RaftHandlers` (what handlers compute), `RaftWorld` (steps), `RaftInvariant`, then one file per group of invariants (`RaftElections`, `RaftReplication`, `RaftTraffic`, `RaftCompleteness`, `RaftVoting`, `RaftCommitment`), `RaftSafety` (every step), `RaftTheorems` (safety in every run), `RaftProgress` (when votes are granted and entries committed), `RaftPeer` (class `Raft`), and what happens without the guards named below: `RaftRuns` (building runs), `RaftAsWritten`, `RaftLateReply` |
| all three | `Runs` (runs of any system) |
| Bank | `BankBranch` (one branch), `BankSerial` (the reference), `BankWorld`, `BankSafety`, `BankTheorems`, `BankReaders` (who can go on, and leaked read locks), `BankUpgrades` (replies before a lock upgrade), `BankCounterexample`, `BankServer` (classes `Application`, `Coordinator`) |
| Multicast | `IsisHeap` (heap order), `IsisQueue` (classes `Message`, `MessagePQ`), `IsisHandlers`, `IsisWorld`, `IsisSafety`, `IsisTheorems`, `IsisCounterexample`, `IsisNode` (class `Multicast`) |

## Raft

Peers exchange vote calls, append requests and acknowledgements. Vote calls may be late or lost and are answered at most
once. Append requests and acknowledgements stay in the network for ever, so they may be lost, late, reordered and even
delivered again, which is more than the source has to cope with. A timeout may happen at any time.

The goroutines of the source interleave more finely than the protocol intends, and it leaves out a check that the
protocol needs. The steps are drawn as follows (files of `raft-demo/src/raft`). The class `Raft` has the source's own
reactions. Where a step of the protocol differs from them, `RaftAsWritten` and `RaftLateReply` apply them to a state that
a run reaches from the initial one, and say exactly when it makes a difference:

- An election timeout, the term increment (raft.go:184-187), the vote for oneself and the requests (raft.go:116-142) are one
  step. `EarlyCandidateVotesTwice` gives the double vote that is possible when `state = CANDIDATE` (raft.go:100) is a
  step of its own; `EarlyKeepsVoteIff` and `EarlySecondVoteIff` say when the early role change alters a vote, and when it
  costs a second one.
- `votedFor = -1` (raft.go:81) happens right after the handler that steps down; that handler's own vote check sees the
  old value.
- Replies act only while the peer is in the role and term that sent the request. The source does not check this again
  (raft.go:144-175, raft.go:270-305), and its safety depends on it. `StaleVoteMakesTwoLeaders` counts a late vote as the
  source does, and a second leader of the term appears; `VoteReplyAgreesIff` says when the check makes no difference. In
  `LateReplyCommitsAlone` a leader takes a late acknowledgement of an earlier term of its own, for which `handleReply`
  still runs: it commits an entry that no other peer has, and delivers it at an index for which another peer has delivered a different command. So
  `CommitNeedsMajority` and `StateMachineSafety` hold of the protocol's steps, and not of the source without the check. In
  `LateReplyOutOfRange` a late acknowledgement makes `commitAt` read past the end of the log. `ReplyAgreesIff` says for
  every reply of every run when the source handles it in bounds and as the protocol does. `commitAt` runs in the step of
  its reply.
- `Start`'s check and append are one step, and so are being elected and the set-up of a leader (raft.go:309-319).
- A next index may leave the log below, as in the source. `ReplicateInBoundsIff` says that `replicate` is in bounds
  exactly for next indices of 1 or more, and in `NextIndexBelowOne` two refused requests bring one from 2 to 0.
  `FirstRequestSucceeds` and `FailedReply` add that only requests sent at a larger next index are refused in their own
  term. A `replicate` that panics sends some of its requests.
- Nothing is persisted, so peers do not crash and come back.

Where the code departs from Figure 2 of the Raft paper, the code is followed: the vote is cleared within a term by a candidate
that steps down, and is not cleared by a follower that moves to a later term; an acknowledgement carries the length of
the whole log; a follower bounds its commit index by its own last entry; a leader delivers from `lastApplied` on and
a follower from its old `commitIndex` on, so that a new leader delivers again what it delivered as a follower.

Safety alone would not notice a peer that grants too few votes or never commits. `RaftProgress` says for every run exactly
when a vote is granted, an election won, a request accepted and an entry committed, and that a follower which accepts what
`replicate` sends has delivered all that the leader had committed.

Indices and terms are unbounded naturals. Commands are only moved and compared, and are integers. The detour of
rpc.go:150 over `float64` is exact for lengths a slice can have and is a minimum here.

## Bank

Every RPC is one step, except that a command may have to wait for the lock of its account: `Issue` runs up to the call
that blocks, `Proceed` from there on. A client sends one command at a time and stops after COMMIT, ABORT or a NOT FOUND
reply; transaction ids are used once. PREPARE and COMMIT calls may be arbitrarily late or lost, and are not duplicated.
File names below are those of `transactions-demo/server`. An account's mutex is a count of readers and a writer flag; who waits longest plays no part.

The reference (`BankSerial`) runs one transaction at a time directly on its balances, without locks, caches or branches
that vote. Committed transactions are replayed on it in the order of their coordinators' decisions. Every reply given under a lock
still held is the serial one. A reply to a read made before a lock upgrade need not be, because the upgrade gives up the
read lock (account.go:56-60): `ReplyCanBeStale` is a run in which it is not. `SerializabilityIff` says exactly when it is:
when the balance read is the one committed at the branch at the moment it grants the write lock.

A transaction that reads an account twice takes two read locks (account.go:48), and gives up one when it ends. `ReaderCount`
counts them, and `ProceedIff` says exactly when a waiting command can go on: to write, no transaction may ever have taken a
second read lock on the account. In `RepeatedBalanceBlocksWriters` one has, and no writer gets the account again.

Amounts may be negative, as the source does not check them. The source's integers are unbounded here.

## Multicast

Runs without failures, with at least two nodes. A cast may reach a node any number of times, directly or through another
node; proposals and agreed priorities arrive once, in any order. Among queued messages of equal priority and sender the
layout of the heap decides which is delivered first; the world allows either.

`A` is read (multicast-demo/types/multicast.go:140) but never assigned, so a node may propose for a message no more than was already agreed for
one it has delivered. `TotalOrderCanFail` is a run in which two nodes therefore deliver two messages in opposite orders.
`SameOrderIff` says exactly when two nodes agree on the order of two messages of different final ranks.

Two messages of one sender may end with the same rank, because each is cast by a goroutine of its own
(multicast-demo/types/node.go:254) and they may overtake each other. In `TiedOrderCanFail` both nodes have both messages
before they deliver either, and still deliver them in opposite orders; `TiedHeads` shows that the heaps choose so.
`SenderOrder` and `SenderFifo` say what rules this out: if every node receives one message of a sender before another,
then their ranks differ and every node delivers them in that order.

## Model

| member | source | states |
|---|---|---|
| `RaftTheorems.RunInv` | raft-demo/src/raft/raft.go:78-339 | The invariant behind all Raft results holds in every state of every run, whatever is lost, late, reordered or repeated. |
| `RaftTheorems.ElectionSafety` | raft-demo/src/raft/raft.go:116-172 | At most one peer is ever leader in a term, over all moments of a run, although votes are cleared within a term. |
| `RaftTheorems.LogShape` | raft-demo/src/raft/raft.go:347-348 | Every log starts with the sentinel, has each entry at its own index, and its terms never go down. |
| `RaftTheorems.LogMatching` | raft-demo/src/raft/rpc.go:104-144 | Two logs, at any two moments, that have entries of one term at one index agree up to there. |
| `RaftTheorems.InFlightMatching` | raft-demo/src/raft/raft.go:207-220 | An entry in flight with the index and term of an entry in a log is that entry, and the log agrees with the sender's up to there. |
| `RaftCompleteness.LeaderCompleteness` | raft-demo/src/raft/util.go:48-60 | A committed entry, with everything before it, is in the log with which any leader of a later term is elected. |
| `RaftCompleteness.NoLeaderLacks` | raft-demo/src/raft/rpc.go:56-59 | The induction over terms behind it: quorum intersection and the up-to-date check leave no first leader without the entry. |
| `RaftTheorems.CommittedEntriesStay` | raft-demo/src/raft/raft.go:243-256 | From the moment an entry is committed in a term, every leader of that or a later term has it and everything before it. |
| `RaftTheorems.CommitNeedsMajority` | raft-demo/src/raft/raft.go:243-256 | A leader commits only an entry of its own term that a majority held in that term. |
| `RaftTheorems.StateMachineSafety` | raft-demo/src/raft/raft.go:233-268 | No two peers, at any moments, as leaders or followers, deliver different commands for one index. |
| `RaftTheorems.DeliveryHasNoGap` | raft-demo/src/raft/rpc.go:147-160 | The delivered indices of a peer are exactly 1 to its commit index, across role changes, and `lastApplied` is within it (their order is in the next row). |
| `RaftTheorems.DeliveryInOrder` | raft-demo/src/raft/raft.go:258-267 | Before any delivery of an index, redelivery by a new leader included, the peer has delivered the index before: the first deliveries come in the order of the log. |
| `RaftTheorems.CommittedPrefixFixed` | raft-demo/src/raft/rpc.go:117-151 | Commit indices never go down, and no peer ever changes its log at or below its commit index. |
| `RaftTheorems.HonestAcknowledgement` | raft-demo/src/raft/rpc.go:164 | A successful non-heartbeat reply reports only entries that the follower really shared with that term's leader, at some earlier moment of that term. |
| `RaftTheorems.MatchIndexIsSound` | raft-demo/src/raft/raft.go:285-302 | `matchIndex` is never overstated and is within the leader's log: the follower had all of the log up to there. |
| `RaftTheorems.RequestsVouchForCommit` | raft-demo/src/raft/raft.go:207-220 | Every request has a commit index within what it matches, and it stands for committed entries. |
| `RaftCommitment.FollowerCommit` | raft-demo/src/raft/rpc.go:147-151 | The minimum with the follower's last index never commits an entry the request has not matched. |
| `RaftCommitment.NoTruncationBelowCommit` | raft-demo/src/raft/rpc.go:117-129 | A request whose sender's log has the follower's committed entries never makes the follower truncate them. |
| `RaftTraffic.HonestLog` | raft-demo/src/raft/rpc.go:114-144 | After accepting a non-heartbeat request, the follower's whole log is part of the log of the request's leader. |
| `RaftTheorems.RequestsAreHandled` | raft-demo/src/raft/rpc.go:104-151 | In every run the handler of a request indexes its log within bounds. |
| `RaftTheorems.RepliesAreHandled` | raft-demo/src/raft/raft.go:233-302 | In every run, a reply to a peer that still leads the term of the request names a follower of the cluster and a length within the leader's log, and commit and next indices are within it. |
| `RaftTheorems.ReplicateInBoundsIff` | raft-demo/src/raft/raft.go:212-220 | In every run, `replicate` reads a leader's log in bounds exactly for the followers whose next index is at least 1. |
| `RaftProgress.VoteGrantedIff` | raft-demo/src/raft/rpc.go:36-64 | In every run, a vote is granted exactly if the request is not stale, the voter has no vote or one for that candidate, and the log with which the candidate asked ends in a later term, or in the same and is at least as long. |
| `RaftProgress.VoteRequestLeaves` | raft-demo/src/raft/rpc.go:36-64 | In every run, a vote request leaves the later of the two terms, which is the reply's; a peer that gives up another role forgets its vote, and another records the one it grants. |
| `RaftProgress.ElectedIff` | raft-demo/src/raft/raft.go:162-171 | In every run, a candidate that counts one more vote leads exactly if the distinct peers that have voted for it are a majority; it then expects every follower to be up to date. |
| `RaftProgress.LaterTermFreesCandidate` | raft-demo/src/raft/raft.go:152-160 | In every run, a candidate that gets a vote reply of a later term follows that term, and grants the first request of that or a later term by which the candidate is up to date. |
| `RaftProgress.LaterTermFreesLeader` | raft-demo/src/raft/raft.go:275-282 | In every run, so does a leader that gets a reply of a later term to an append request. |
| `RaftProgress.ReplicateCarries` | raft-demo/src/raft/raft.go:195-231 | In every run, `replicate` sends every follower, except one with a next index below 1, a request that reaches the end of the leader's log and carries its commit index. |
| `RaftProgress.AppendAcceptedIff` | raft-demo/src/raft/rpc.go:71-165 | In every run, a request is accepted exactly if it is not stale and the log has the entry before it with its term; the follower then has the larger of the two commit indices, and reports its whole length. |
| `RaftProgress.FollowerCatchesUp` | raft-demo/src/raft/rpc.go:147-160 | A follower that accepts such a request, whenever it arrives, has committed and delivered all that the leader had committed when it sent it. |
| `RaftProgress.CommitIff` | raft-demo/src/raft/raft.go:233-268 | In every run, an acknowledged index above the leader's commit index becomes it exactly if the entry there is of the leader's term and a majority, by `matchIndex` after the reply, has it; the leader then has delivered up to there. |
| `RaftAsWritten.NextIndexBelowOne` | raft-demo/src/raft/raft.go:298-302 | A run in which a leader refused twice at next index 2 gets to next index 0, at which `replicate` reads the log at -1. |
| `RaftAsWritten.FirstRequestSucceeds` | raft-demo/src/raft/rpc.go:104-112 | In every run, a request with previous index 0 that is not stale succeeds. |
| `RaftAsWritten.FailedReply` | raft-demo/src/raft/rpc.go:85-110 | Every failed reply of a run is from a later term, or answers a request with a previous index of at least 1, sent at a next index above 1. |
| `RaftLateReply.LateReplyCommitsAlone` | raft-demo/src/raft/raft.go:285-297 | A run in which a late acknowledgement, taken as written, makes a leader commit an entry that is in no other log, and deliver it where another peer has delivered another command. |
| `RaftLateReply.LateReplyOutOfRange` | raft-demo/src/raft/raft.go:233-241 | A run in which an acknowledgement reaches its leader when that is a follower of a later term with a shorter log: `commitAt` reads past the end. |
| `RaftAsWritten.ReplyAgreesIff` | raft-demo/src/raft/raft.go:270-305 | In every run, the source takes an acknowledgement in bounds and as the protocol does exactly if the peer still leads the term of the request, or the reply changes nothing. |
| `RaftAsWritten.EarlyCandidateVotesTwice` | raft-demo/src/raft/raft.go:95-103 | From a state of a run: if the change to candidate preceded the term increment as a step of its own, a second peer would lead the term. |
| `RaftAsWritten.EarlyKeepsVoteIff` | raft-demo/src/raft/rpc.go:36-64 | The early role change leaves the recorded vote as it would be after an append request exactly if there is none or the request is stale, and after a vote request exactly if its term is not later or there is neither an old nor a new vote. |
| `RaftAsWritten.EarlySecondVoteIff` | raft-demo/src/raft/rpc.go:93-100 | A follower never votes twice in its term; an early candidate does after an append request exactly if that is of the same term and the second candidate's log is up to date. |
| `RaftAsWritten.StaleVoteMakesTwoLeaders` | raft-demo/src/raft/raft.go:150-172 | A run in which counting a late vote as written, without looking at role and term again, makes a second leader of the term. |
| `RaftAsWritten.VoteReplyAgreesIff` | raft-demo/src/raft/raft.go:150-172 | Counting as written is the protocol's reaction exactly if the peer is still a candidate of the term that asked, or the reply has neither a vote nor a later term. |
| `RaftLog.FirstNew` | raft-demo/src/raft/rpc.go:116-129 | The first entry that is missing or conflicts: all before it are present, it is not. |
| `RaftLog.MergeEffect` | raft-demo/src/raft/rpc.go:114-144 | The merge keeps what precedes the first new entry, has the received entries themselves from there on, drops what follows a conflict, and leaves the log alone exactly if it holds all entries. |
| `RaftLog.MergeIsIdempotent` | raft-demo/src/raft/rpc.go:114-144 | Merging the same entries again changes nothing. |
| `RaftLog.MergeKeepsIndexed` | raft-demo/src/raft/rpc.go:114-144 | Merging contiguous entries leaves every entry at its own index. |
| `RaftPeer.Raft.Make` | raft-demo/src/raft/raft.go:341-363 | A new peer is in the initial state of the protocol, and has delivered nothing. |
| `RaftPeer.Raft.RequestVote` | raft-demo/src/raft/rpc.go:36-64 | The handler's new state and reply are those of the protocol step, with the old vote used in the check. |
| `RaftPeer.Raft.AppendEntries` | raft-demo/src/raft/rpc.go:71-165 | The handler's new state, its reply and what it sends on the apply channel are those of the protocol step. |
| `RaftPeer.Raft.MergeEntries` | raft-demo/src/raft/rpc.go:114-144 | The two loops with `inLog` and `needAppend` keep the log up to the first missing or conflicting entry and append the rest. |
| `RaftPeer.Raft.MarkPresent` | raft-demo/src/raft/rpc.go:114-129 | The first loop marks exactly the entries before the first new one, and truncates at a conflict. |
| `RaftPeer.Raft.AppendMissing` | raft-demo/src/raft/rpc.go:131-144 | The second loop appends everything from the first unmarked entry on. |
| `RaftPeer.Raft.Apply` | raft-demo/src/raft/rpc.go:152-160 | The delivery loop sends each entry of the range once, in order. |
| `RaftPeer.Raft.StartElection` | raft-demo/src/raft/raft.go:109-125 | A timeout takes the peer to the next term as a candidate with its own vote, and asks with its last index and term. |
| `RaftPeer.Raft.HandleVoteReply` | raft-demo/src/raft/raft.go:150-172 | Counting a vote, giving way to a later term and winning are as the source does them, in whatever role the peer is; the protocol step is this under its guard. |
| `RaftPeer.Raft.ToLeader` | raft-demo/src/raft/raft.go:309-319 | The set-up loop expects every follower to be up to date and to have matched nothing. |
| `RaftPeer.Raft.Start` | raft-demo/src/raft/raft.go:35-63 | A leader appends the command at the index it returns, in its term; another peer refuses and changes nothing. |
| `RaftPeer.Raft.Replicate` | raft-demo/src/raft/raft.go:195-231 | The requests go to every follower, in the order of their numbers and one to each: a heartbeat, or all entries from its next index on. |
| `RaftPeer.Raft.CountReplicas` | raft-demo/src/raft/raft.go:243-251 | The loop counts the peers, the leader included, whose matched index reaches the entry. |
| `RaftPeer.Raft.CommitAt` | raft-demo/src/raft/raft.go:233-268 | Commit and delivery are those of the protocol step. |
| `RaftPeer.Raft.HandleReply` | raft-demo/src/raft/raft.go:270-305 | The leader's view of a follower, and what it commits and delivers, are as the source does them, in whatever role the peer is; the protocol step is this under its guard. |
| `BankTheorems.RunInv` | transactions-demo/server/rpc.go:13-288 | The invariant behind all bank results holds in every state of every run. |
| `BankTheorems.LockTable` | transactions-demo/server/account.go:35-70 | In every state the two lock tables mirror each other, a writer is alone, the reader count covers all readers, and what a transaction has changed it has write-locked. |
| `BankReaders.ReaderCount` | transactions-demo/server/account.go:43-69 | In every run, an account's mutex counts the read locks taken less those given up, which is also the number of holders, unless one writes, plus the repeated reads. |
| `BankReaders.ProceedIff` | transactions-demo/server/account.go:48-66 | In every run, a waiting command can go on exactly if nobody writes the account and, to write, nobody has a lock there and no transaction has ever taken a second read lock. |
| `BankReaders.NeverFreeAgain` | transactions-demo/server/account.go:140-159 | An account with a read lock that no holder accounts for is never free for a writer again, whatever happens. |
| `BankCounterexample.RepeatedBalanceBlocksWriters` | transactions-demo/server/account.go:43-51 | A run in which a transaction reads an account twice and commits; nobody has a lock then, and no run that goes on from there ever has the account free for a writer. |
| `BankBranch.FinishKeepsTable` | transactions-demo/server/account.go:140-159 | Commit and abort keep the lock table in order, and never unlock a mutex that is not locked that way. |
| `BankBranch.FinishLeavesOthers` | transactions-demo/server/rpc.go:270-288 | Applying a transaction changes nothing another transaction holds a lock on. |
| `BankTheorems.AppliedOnlyIfAllAgreed` | transactions-demo/server/rpc.go:23-71 | A branch applies a transaction only if every related branch has answered yes. |
| `BankSafety.EveryBranchAgreed` | transactions-demo/server/rpc.go:40-53 | The counter reaches the number of related branches only when all of them have agreed. |
| `BankReaders.EveryBranchAsked` | transactions-demo/server/rpc.go:25-35 | In every run, while a transaction is being decided, every related branch has been asked, and has agreed or its call is still on its way. |
| `BankTheorems.Atomicity` | transactions-demo/server/rpc.go:63-112 | No transaction is ever applied at one branch and discarded at another, at whatever moments. |
| `BankTheorems.NeverNegative` | transactions-demo/server/rpc.go:251-288 | No committed balance is ever negative at any branch. |
| `BankTheorems.SerialNonNegative` | transactions-demo/server/rpc.go:251-268 | In every state of every run, nor is any balance of the serial bank after the transactions decided so far. |
| `BankTheorems.FinalBalances` | transactions-demo/server/rpc.go:270-288 | Once a branch has applied everything decided, its accounts and balances are those of the serial bank. |
| `BankTheorems.BalancesInFlight` | transactions-demo/server/rpc.go:270-288 | At any moment an account differs from the serial bank by the changes of at most one decided transaction. |
| `BankTheorems.RepliesAreSerial` | transactions-demo/server/account.go:72-138 | In every run, when a transaction is decided, every reply under a lock it still holds is the one of the serial bank running it now. |
| `BankTheorems.Serializability` | transactions-demo/server/rpc.go:13-88 | Replayed in the order of decisions, each committed transaction gets from the serial bank every reply it got under a lock it still held (the exact condition for all replies is in `SerializabilityIff`). |
| `BankTheorems.NotFoundIsSerial` | transactions-demo/server/account.go:83-86 | In every run, a transaction that aborts because an account is not found has got NOT FOUND last, and so it would from the serial bank. |
| `BankTheorems.VoteIsSerial` | transactions-demo/server/rpc.go:251-268 | A branch agrees exactly if running the transaction serially leaves it no negative balance. |
| `BankCounterexample.ReplyCanBeStale` | transactions-demo/server/account.go:54-61 | A run in which a balance read before a lock upgrade is not the serial one, nor the one committed when the write lock is granted. |
| `BankUpgrades.SerializabilityIff` | transactions-demo/server/rpc.go:13-88 | Exactly which replies are serial, for every reply of the k-th transaction to commit, which is named with its moment of decision: those under a lock still held, and of the others those equal to the committed balance that the branch has at the earlier moment when it grants this transaction the write lock. |
| `BankUpgrades.StaleReplyIff` | transactions-demo/server/account.go:54-68 | At the decision, a reply before an upgrade is serial exactly if it is the balance committed when the upgrade's lock is granted; there is always such a moment. |
| `BankUpgrades.ReplyIsSerialIff` | transactions-demo/server/account.go:72-138 | At the decision, any reply under any lock is serial exactly if its branch would give it again now. |
| `BankUpgrades.FixedUntil` | transactions-demo/server/account.go:53-68 | From the grant of a write lock until its transaction is finished, no step changes the account's committed balance or takes the lock away. |
| `BankUpgrades.RunBacked` | transactions-demo/server/account.go:98-138 | In every run, a transaction with a write lock has run a command that writes the account. |
| `BankSerial.RunIsOverlay` | transactions-demo/server/account.go:98-138 | Running a transaction on the balances, and adding its cached changes at the end, give the same. |
| `BankSerial.ReplyIsAnswer` | transactions-demo/server/account.go:72-96 | The reply computed from committed balance and cached change is the one after running the commands before it. |
| `BankServer.Application.Enter` | transactions-demo/server/rpc.go:219-229 | The first command of a transaction creates its tables; a later one changes nothing. |
| `BankServer.Application.RequestRWLock` | transactions-demo/server/account.go:35-65 | Up to the call that blocks: an upgrade gives up the read lock, and a lock that suffices is reported. |
| `BankServer.Application.TakeRWLock` | transactions-demo/server/account.go:48-68 | Once let through, both lock tables record the lock. |
| `BankServer.Application.Balance` | transactions-demo/server/account.go:72-96 | The reply is committed balance plus cached change, or NOT FOUND if neither is known. |
| `BankServer.Application.Deposit` | transactions-demo/server/account.go:98-112 | The deposit is added to the cached change. |
| `BankServer.Application.Withdraw` | transactions-demo/server/account.go:114-138 | The withdrawal is taken from the cached change, or NOT FOUND and nothing changes. |
| `BankServer.Application.Prepare` | transactions-demo/server/rpc.go:251-268 | The loop answers yes exactly if no locked account would end up negative. |
| `BankServer.Application.Commit` | transactions-demo/server/rpc.go:270-288 | Changes are applied or dropped, and all locks released, as in the protocol step. |
| `BankServer.Application.AddChanges` | transactions-demo/server/rpc.go:275-277 | The loop adds every cached change once. |
| `BankServer.Application.ReleaseRWLocks` | transactions-demo/server/account.go:140-159 | The loop releases every lock of the transaction and no other. |
| `BankServer.Coordinator.TwoPhaseCommit` | transactions-demo/server/rpc.go:13-71 | Whatever the order of the replies, the orders that go out are to commit exactly if every related branch has agreed; they are those the protocol's steps issue when they count the same votes. |
| `BankServer.CollectOrders` | transactions-demo/server/rpc.go:38-61 | Counting the votes one step at a time ends with a decision, to commit exactly if all are yes, and with the orders for all related branches. |
| `BankServer.Coordinator.Begin` | transactions-demo/server/rpc.go:119-123 | After BEGIN the tables hold what the protocol's BEGIN step gives a new transaction, and the same as before of every other. |
| `BankServer.Coordinator.Relate` | transactions-demo/server/rpc.go:181-183 | If the tables hold what the protocol knows of a transaction, they do so again after the step in which a command is issued. |
| `IsisTheorems.RunInv` | multicast-demo/types/multicast.go:98-245 | The invariant behind all multicast results holds in every state of every run. |
| `IsisTheorems.AgreementRound` | multicast-demo/types/multicast.go:182-231 | A message is announced once, exactly when all nodes' proposals have been counted, with the largest of them. |
| `IsisTheorems.AgreedIsFound` | multicast-demo/types/multicast.go:232-237 | An agreed priority always finds its message in the queue, undecided, and never lowers its priority. |
| `IsisTheorems.AgreedCanRun` | multicast-demo/types/multicast.go:232-243 | The handler of an agreed priority can always run to its end. |
| `IsisTheorems.AgreedStep` | multicast-demo/types/multicast.go:232-243 | The step updates the queue and delivers what the loop takes out of it, in that order. |
| `IsisTheorems.DeliveredOnce` | multicast-demo/types/multicast.go:239-242 | No node delivers a message twice, or one that was not announced. |
| `IsisTheorems.AnnouncedIsSomewhere` | multicast-demo/types/multicast.go:232-243 | An announced message is, at every node, in exactly one place: on its way, deliverable in the queue, or delivered. |
| `IsisTheorems.PromptDelivery` | multicast-demo/types/multicast.go:239-242 | In every state a deliverable message waits only behind one that is not agreed yet. |
| `IsisTheorems.RunLater` | multicast-demo/types/multicast.go:138-149 | Agreed priorities and deliveries are final, and the rank of a message at a node only rises. |
| `IsisTheorems.OrderAtNode` | multicast-demo/types/priority_queue.go:9-15 | In every run, a node delivers two messages in the order of their different final ranks exactly if it had received the smaller one by the time it delivered the other. |
| `IsisTheorems.SameOrderIff` | multicast-demo/types/multicast.go:138-149 | Two nodes agree on the order of two messages of different final ranks exactly if both, or neither, received the smaller one in time. |
| `IsisTheorems.PairwiseOrder` | multicast-demo/types/multicast.go:232-243 | If both nodes received both messages before delivering either, and the final ranks differ, they deliver them in the same order, that of the ranks. |
| `IsisTheorems.SenderOrder` | multicast-demo/types/multicast.go:138-149 | If every node received a sender's message before another, their final ranks differ and are in that order. |
| `IsisTheorems.SenderFifo` | multicast-demo/types/multicast.go:232-243 | Then every node delivers the two in that order. |
| `IsisCounterexample.TiedOrderCanFail` | multicast-demo/types/node.go:254 | A run in which two nodes, with both messages of one sender before delivering either, deliver them in opposite orders: their final ranks are equal. |
| `IsisCounterexample.TiedHeads` | multicast-demo/types/priority_queue.go:17-28 | Two heaps that take in two messages in different orders have different heads once their ranks are equal. |
| `IsisCounterexample.TotalOrderCanFail` | multicast-demo/types/multicast.go:140 | A run in which two nodes deliver two messages of different ranks in opposite orders. |
| `IsisHandlers.DrainsInOrder` | multicast-demo/types/multicast.go:239-242 | One run of the delivery loop delivers deliverable messages only, in the order of their ranks. |
| `IsisHeap.HeadIsMinimal` | multicast-demo/types/priority_queue.go:9-15 | In heap order nothing comes before the head. |
| `IsisHeap.SwapUp` | multicast-demo/types/priority_queue.go:17-21 | An exchange of `up` moves the only violation of the heap order to the parent. |
| `IsisHeap.SwapDown` | multicast-demo/types/priority_queue.go:17-21 | An exchange of `down` with the smaller child moves the only violation of the heap order to that child. |
| `IsisHeap.LastMoved` | multicast-demo/types/priority_queue.go:46-48 | Replacing an item by the last one leaves the heap order violated at most there. |
| `IsisQueue.MessagePQ.Less` | multicast-demo/types/priority_queue.go:9-15 | Priority decides, then the sender's number. |
| `IsisQueue.MessagePQ.Swap` | multicast-demo/types/priority_queue.go:17-21 | Two messages change places, everyone knows their own place, and nothing else changes. |
| `IsisQueue.MessagePQ.Up` | multicast-demo/types/priority_queue.go:17-21 | The loop restores the heap order, places and contents. |
| `IsisQueue.MessagePQ.Down` | multicast-demo/types/priority_queue.go:17-21 | The loop restores the heap order below, or reports that it moved nothing. |
| `IsisQueue.MessagePQ.Push` | multicast-demo/types/priority_queue.go:23-28 | The queue is a heap with that message more, every message knows its place, and none is moved if the new one is in order at the end. |
| `IsisQueue.MessagePQ.Pop` | multicast-demo/types/priority_queue.go:30-39 | The head leaves, nothing that stays comes before it, and the rest is a heap with unchanged contents. |
| `IsisQueue.MessagePQ.Update` | multicast-demo/types/priority_queue.go:41-44 | One message gets another priority, the queue is a heap with the same messages, and none is moved if that is in order where it is. |
| `IsisQueue.MessagePQ.Remove` | multicast-demo/types/priority_queue.go:46-48 | Exactly that message leaves, and the rest is a heap. |
| `IsisQueue.MessagePQ.FindById` | multicast-demo/types/priority_queue.go:50-57 | A message of the queue with that id, or null exactly if there is none. |
| `IsisNode.Multicast.HandleInitial` | multicast-demo/types/multicast.go:122-149 | A message seen before is dropped; a new one is queued and a larger priority than ever is proposed, as in the protocol step. |
| `IsisNode.Multicast.Enqueue` | multicast-demo/types/multicast.go:138-144 | A new message is queued, not deliverable, with the larger of agreed and proposed priority plus one, which is also this node's new proposal. |
| `IsisNode.Multicast.HandleProposal` | multicast-demo/types/multicast.go:194-231 | Maximum, reply count and announcement are those of the protocol step. |
| `IsisNode.Multicast.HandleAgreed` | multicast-demo/types/multicast.go:232-243 | The queue afterwards and the deliveries are those of the protocol step. |
| `IsisNode.Multicast.Drain` | multicast-demo/types/multicast.go:239-242 | The loop takes out heads as long as they are deliverable, and stops when none is. |

## Left out

- `labrpc`, `labgob`, `net/rpc`, sockets, encoding, configuration and command parsing, console and file output: not part of this model.
- Timers, random timeouts, wake-up channels and every claim that something eventually happens.
- Interleavings of the goroutines within a step, for each step listed above.
- The numbers of peers and branches of the demos: every number is covered.
- `RaftPeer.Raft.AppendEntries`: needs entries that continue from `PrevLogIndex`, with which every request of every run comes (`RaftTheorems.RequestsAreHandled`); on others the source indexes its log out of range.
- `RaftPeer.Raft.HandleReply`: needs a reply that does not make `commitAt` read past the end of the log, where the source panics; `RaftAsWritten.ReplyAgreesIff` says when that is so in a run. `RaftPeer.Raft.CommitAt` likewise.
- `RaftTheorems.RepliesAreHandled`: speaks of replies that find their leader in the same role and term, which the source does not check; `RaftLateReply.LateReplyOutOfRange` shows what happens to others. It gives no lower bound for next indices, as the source has none: `RaftTheorems.ReplicateInBoundsIff` and `RaftAsWritten.NextIndexBelowOne`.
- `RaftTheorems.StateMachineSafety`: rests, like the other results about runs of Raft, on the check of role and term; `RaftLateReply.LateReplyCommitsAlone` and `RaftAsWritten.StaleVoteMakesTwoLeaders` show that the source does not have them without it.
- `RaftPeer.Raft.Make`: starts with next and matched indices of 0, where the source has no such slices until the peer first leads.
- `RaftPeer.Raft.Replicate`: needs every next index to be at least 1; otherwise the source panics, as `RaftTheorems.ReplicateInBoundsIff` says.
- `BankTheorems.Serializability`: leaves out replies to reads made before a lock upgrade, which `BankCounterexample.ReplyCanBeStale` shows need not be serial; `BankUpgrades.SerializabilityIff` says exactly when they are.
- `BankReaders.ProceedIff`: Go's mutex also makes new readers wait behind a waiting writer, which is not modelled; that can only make a reader wait longer.
- `BankServer.Application.TakeRWLock`: the wait for the mutex is a precondition that it lets the request through; the queueing of waiting writers is not modelled.
- `BankServer.Application.Balance`: starts once the lock is held, and so do `Deposit` and `Withdraw`; asking for the lock and getting it are the two methods before them, between which other transactions act.
- `BankServer.Coordinator.TwoPhaseCommit`: takes the replies as a sequence in order of arrival instead of reading a channel.
- Deadlock and progress of the lock manager: the source has no deadlock detection, and an upgrade can wait for its own repeated read lock.
- The coordinator's clean-up of its tables after commit and abort (transactions-demo/server/rpc.go:74-87 and 107-111).
- The dialling of branches and the text of replies in `SendCoord` and `ForwardCmd`.
- `IsisTheorems.PairwiseOrder`: states no order for messages of equal final rank, and `IsisTheorems.SameOrderIff` neither: the heap's layout decides it, and `IsisCounterexample.TiedOrderCanFail` shows two nodes that differ. Only messages of one sender can have equal ranks, and not if `IsisTheorems.SenderOrder` applies.
- Failure handling of the multicast (multicast-demo/types/multicast.go:103-120 and status "pf"), and with it its use of `Remove`.
- The backing array of the queue and the `nil` that `Pop` leaves in it.
- The replicated ledger of `application.go`, whose conservation is simple beside the protocols.
