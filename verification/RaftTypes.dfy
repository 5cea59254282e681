/** The entities of the Raft demo: log entries, RPC arguments and replies, the state of
    one peer, and the two comparisons of raft/util.go. */
module RaftTypes {

  /** The source stores arbitrary values; they are only moved and compared, never inspected. */
  type Command = int

  datatype LogEntry = LogEntry(command: Command, term: nat, index: nat)

  /** The entry every log starts with. */
  const SENTINEL := LogEntry(0, 0, 0)

  /** What is sent on `applyCh`. */
  datatype ApplyMsg = ApplyMsg(commandValid: bool, command: Command, commandIndex: nat)

  datatype Role = Follower | Candidate | Leader

  datatype RequestVoteArgs = RequestVoteArgs(term: nat, candidateId: nat, lastLogIndex: nat, lastLogTerm: nat)

  datatype RequestVoteReply = RequestVoteReply(term: nat, voteGranted: bool)

  datatype AppendEntriesArgs = AppendEntriesArgs(
    term: nat, leaderId: nat, prevLogIndex: int, prevLogTerm: int, entries: seq<LogEntry>, leaderCommit: nat)

  datatype AppendEntriesReply = AppendEntriesReply(
    followerId: nat, term: nat, lastLogIndex: nat, isHeartbeat: bool, success: bool)

  /** The fields of `Raft` that carry protocol state. `votedFor` is -1 when no vote is recorded. A next index may
      leave the log below. */
  datatype Peer = Peer(
    me: nat, numPeers: nat, role: Role, currentTerm: nat, votedFor: int, votesGot: nat,
    log: seq<LogEntry>, commitIndex: nat, lastApplied: nat, nextIndex: seq<int>, matchIndex: seq<nat>)

  function TermAt(log: seq<LogEntry>, i: int): nat {
    if 0 <= i < |log| then log[i].term else 0
  }

  /** The `Index` field of the last entry. */
  function LastIndex(log: seq<LogEntry>): nat {
    if |log| == 0 then 0 else log[|log| - 1].index
  }

  function LastTerm(log: seq<LogEntry>): nat {
    TermAt(log, |log| - 1)
  }

  predicate IsCandUpToDate(log: seq<LogEntry>, args: RequestVoteArgs) {
    |log| == 0
    || args.lastLogTerm > LastTerm(log)
    || (args.lastLogTerm == LastTerm(log) && args.lastLogIndex >= |log| - 1)
  }

  predicate IsElected(votesGot: nat, numPeers: nat) {
    votesGot > numPeers / 2
  }

  /** A log in which every entry sits at its own index. */
  predicate Indexed(log: seq<LogEntry>) {
    |log| > 0 && forall k :: 0 <= k < |log| ==> log[k].index == k
  }
}
