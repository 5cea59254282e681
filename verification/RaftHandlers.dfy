/** What each handler and loop body of a peer computes, as functions on the peer's state.
    The step boundaries of the protocol model are drawn here:
    - an election timeout, the term increment, the vote for oneself and the request are one step;
    - `votedFor = -1` of `toFollower` happens at the end of the handler that steps down, whose own
      vote check still sees the old value;
    - replies act only while the peer is in the role and term that sent the request, and
      `commitAt` runs in the step of its reply;
    - being elected and the set-up of `toLeader` are one step. */
module RaftHandlers {
  import opened RaftTypes
  import opened RaftLog

  datatype VoteOutcome = VoteOutcome(peer: Peer, reply: RequestVoteReply)

  datatype AppendOutcome = AppendOutcome(peer: Peer, reply: AppendEntriesReply, sent: seq<ApplyMsg>)

  datatype CommitOutcome = CommitOutcome(peer: Peer, sent: seq<ApplyMsg>)

  /** A peer fresh from `Make`, once its first `toFollower` has run. */
  function Fresh(me: nat, numPeers: nat): Peer {
    Peer(me, numPeers, Follower, 0, -1, 0, [SENTINEL], 0, 0, seq(numPeers, _ => 0), seq(numPeers, _ => 0))
  }

  /** Adopt `term` as a follower; the vote is forgotten only by a peer that was not a follower before. */
  function StepDown(p: Peer, term: nat): Peer {
    p.(currentTerm := term, role := Follower, votedFor := if p.role.Follower? then p.votedFor else -1)
  }

  function VoteRequest(p: Peer): RequestVoteArgs {
    RequestVoteArgs(p.currentTerm, p.me, LastIndex(p.log), LastTerm(p.log))
  }

  /** An election timeout of a follower or a candidate. */
  function Campaign(p: Peer): Peer {
    p.(role := Candidate, currentTerm := p.currentTerm + 1, votedFor := p.me, votesGot := 1)
  }

  /** The role change of `toFollower` at a timeout, which the source makes one step before the rest of `Campaign`. */
  function BecomeCandidate(p: Peer): Peer {
    p.(role := Candidate)
  }

  function OnRequestVote(p: Peer, args: RequestVoteArgs): VoteOutcome {
    if args.term < p.currentTerm then VoteOutcome(p, RequestVoteReply(p.currentTerm, false))
    else
      var granted := (p.votedFor == -1 || p.votedFor == args.candidateId) && IsCandUpToDate(p.log, args);
      var q := if granted then p.(votedFor := args.candidateId) else p;
      VoteOutcome(if args.term > p.currentTerm then StepDown(q, args.term) else q,
                  RequestVoteReply(args.term, granted))
  }

  /** `sentTerm` is the term in which the vote was asked for. */
  predicate VoteReplyActs(p: Peer, sentTerm: nat) {
    p.role.Candidate? && p.currentTerm == sentTerm
  }

  /** A goroutine that meets a later term starts `toFollower`, which forgets the vote. */
  function GiveWay(p: Peer, term: nat): Peer {
    p.(currentTerm := term, role := Follower, votedFor := -1)
  }

  /** What the source does with a vote reply, whatever has become of the peer. */
  function CountVote(p: Peer, reply: RequestVoteReply): Peer {
    if reply.term > p.currentTerm then GiveWay(p, reply.term)
    else if !reply.voteGranted then p
    else
      var q := p.(votesGot := p.votesGot + 1);
      if IsElected(q.votesGot, q.numPeers) then Lead(q) else q
  }

  /** What the protocol does with it. */
  function OnVoteReply(p: Peer, sentTerm: nat, reply: RequestVoteReply): Peer {
    if VoteReplyActs(p, sentTerm) then CountVote(p, reply) else p
  }

  /** Winning an election, with the set-up at the head of `toLeader`. */
  function Lead(p: Peer): Peer {
    p.(role := Leader,
      nextIndex := seq(p.numPeers, i => if i == p.me then 0 else |p.log|),
      matchIndex := seq(p.numPeers, _ => 0))
  }

  function OnStart(p: Peer, command: Command): Peer {
    if p.role.Leader? then p.(log := p.log + [LogEntry(command, p.currentTerm, |p.log|)]) else p
  }

  /** The index at which `replicate` reads the log, for a follower whose next index is `next`. */
  function PrevIndex(p: Peer, next: int): int {
    if |p.log| - 1 >= next then next - 1 else |p.log| - 1
  }

  /** What `replicate` sends to the follower: a heartbeat, or every entry from there on. */
  function Replication(p: Peer, next: int): AppendEntriesArgs
    requires next >= 1
  {
    var prev := PrevIndex(p, next);
    AppendEntriesArgs(p.currentTerm, p.me, prev, TermAt(p.log, prev),
                      if |p.log| - 1 >= next then p.log[next..] else [], p.commitIndex)
  }

  predicate Consistent(log: seq<LogEntry>, args: AppendEntriesArgs) {
    args.prevLogTerm == -1 || (args.prevLogIndex < |log| && TermAt(log, args.prevLogIndex) == args.prevLogTerm)
  }

  function Min(a: nat, b: nat): nat { if a < b then a else b }

  /** What a well-formed caller sends: entries that follow `prevLogIndex`, and -1 twice or not at all. */
  predicate WellFormed(args: AppendEntriesArgs) {
    && args.prevLogIndex >= -1
    && (args.prevLogIndex == -1 <==> args.prevLogTerm == -1)
    && Contiguous(args.prevLogIndex, args.entries)
  }

  /** A request of a later term, or one that reaches a candidate, turns its receiver into a follower. */
  function Adopt(p: Peer, term: nat): Peer {
    if term > p.currentTerm || p.role.Candidate? then StepDown(p, term) else p
  }

  /** The merge, the commit index and the delivery of a request that passes the consistency check. */
  function Accept(p: Peer, args: AppendEntriesArgs): AppendOutcome
    requires -1 <= args.prevLogIndex < |p.log|
  {
    var log := Merge(p.log, args.prevLogIndex, args.entries);
    var commit := if args.leaderCommit > p.commitIndex then Min(args.leaderCommit, LastIndex(log)) else p.commitIndex;
    AppendOutcome(p.(log := log, commitIndex := commit),
                  AppendEntriesReply(p.me, p.currentTerm, if |log| > 0 then |log| - 1 else 0,
                                     |args.entries| == 0, true),
                  Deliveries(log, p.commitIndex, commit))
  }

  function Refuse(p: Peer, args: AppendEntriesArgs): AppendOutcome {
    AppendOutcome(p, AppendEntriesReply(p.me, p.currentTerm, 0, |args.entries| == 0, false), [])
  }

  function OnAppendEntries(p: Peer, args: AppendEntriesArgs): AppendOutcome
    requires |p.log| > 0 && WellFormed(args)
  {
    if args.term < p.currentTerm then Refuse(p, args)
    else
      var q := Adopt(p, args.term);
      if Consistent(q.log, args) then Accept(q, args) else Refuse(q, args)
  }

  predicate AppendReplyActs(p: Peer, sentTerm: nat) {
    p.role.Leader? && p.currentTerm == sentTerm
  }

  /** The peers a leader counts for `index`: itself and those whose `matchIndex` reaches it. */
  function Replicas(p: Peer, index: nat): set<nat> {
    set i: nat | 0 <= i < p.numPeers && (i == p.me || (i < |p.matchIndex| && p.matchIndex[i] >= index))
  }

  predicate CanCommit(p: Peer, index: nat) {
    |Replicas(p, index)| > p.numPeers / 2 && TermAt(p.log, index) == p.currentTerm
  }

  function CommitAt(p: Peer, index: nat): CommitOutcome {
    if index <= p.commitIndex then CommitOutcome(p, [])
    else
      var q := if CanCommit(p, index) then p.(commitIndex := index) else p;
      CommitOutcome(q.(lastApplied := if q.lastApplied < q.commitIndex then q.commitIndex else q.lastApplied),
                    Deliveries(q.log, q.lastApplied, q.commitIndex))
  }

  /** The follower's position as the leader sees it after a successful, non-heartbeat reply. */
  function Acknowledge(p: Peer, f: nat, last: nat): Peer
    requires f < |p.nextIndex| && f < |p.matchIndex|
  {
    p.(matchIndex := if p.matchIndex[f] < last then p.matchIndex[f := last] else p.matchIndex,
      nextIndex := p.nextIndex[f := last + 1])
  }

  /** `commitAt` reads the log past its end, and the source panics. */
  predicate ReadsPastEnd(p: Peer, reply: AppendEntriesReply) {
    && reply.term <= p.currentTerm && reply.success && !reply.isHeartbeat
    && reply.lastLogIndex > p.commitIndex && reply.lastLogIndex >= |p.log|
  }

  /** What the source does with a reply to an append request, whatever has become of the peer, unless it panics. */
  function TakeReply(p: Peer, reply: AppendEntriesReply): CommitOutcome
    requires reply.followerId < |p.nextIndex| && reply.followerId < |p.matchIndex|
  {
    if reply.term > p.currentTerm then CommitOutcome(GiveWay(p, reply.term), [])
    else if !reply.success then
      CommitOutcome(p.(nextIndex := p.nextIndex[reply.followerId := p.nextIndex[reply.followerId] - 1]), [])
    else if reply.isHeartbeat then CommitOutcome(p, [])
    else CommitAt(Acknowledge(p, reply.followerId, reply.lastLogIndex), reply.lastLogIndex)
  }

  /** What the protocol does with it. */
  function OnAppendReply(p: Peer, sentTerm: nat, reply: AppendEntriesReply): CommitOutcome
    requires reply.followerId < |p.nextIndex| && reply.followerId < |p.matchIndex|
  {
    if AppendReplyActs(p, sentTerm) then TakeReply(p, reply) else CommitOutcome(p, [])
  }
}
