/** The `Raft` object: its RPC handlers and the bodies of its goroutine loops, updating its fields in
    place. Each method is proved against the function of RaftHandlers that the protocol steps use. */
module RaftPeer {
  import opened RaftTypes
  import opened RaftLog
  import opened RaftHandlers

  class Raft {
    const me: nat
    const numPeers: nat
    var role: Role
    var currentTerm: nat
    var votedFor: int
    var votesGot: nat
    var log: seq<LogEntry>
    var commitIndex: nat
    var lastApplied: nat
    var nextIndex: array<int>
    var matchIndex: array<nat>
    /** Everything sent on the apply channel so far. */
    var applyCh: seq<ApplyMsg>

    ghost predicate Valid()
      reads this
    {
      Indexed(log) && nextIndex.Length == numPeers && matchIndex.Length == numPeers
    }

    ghost function State(): Peer
      reads this, nextIndex, matchIndex
    {
      Peer(me, numPeers, role, currentTerm, votedFor, votesGot, log, commitIndex, lastApplied, nextIndex[..],
        matchIndex[..])
    }

    constructor Make(me: nat, numPeers: nat)
      ensures Valid() && fresh(nextIndex) && fresh(matchIndex)
      ensures State() == Fresh(me, numPeers) && applyCh == []
      ensures this.me == me && this.numPeers == numPeers && role == Follower && currentTerm == 0 && votedFor == -1
      ensures log == [LogEntry(0, 0, 0)] && commitIndex == lastApplied == votesGot == 0
      ensures forall f :: 0 <= f < numPeers ==> nextIndex[f] == matchIndex[f] == 0
    {
      this.me := me;
      this.numPeers := numPeers;
      role, currentTerm, votedFor, votesGot := Follower, 0, -1, 0;
      log := [SENTINEL];
      commitIndex, lastApplied := 0, 0;
      nextIndex := new int[numPeers](_ => 0);
      matchIndex := new nat[numPeers](_ => 0);
      applyCh := [];
    }

    method RequestVote(args: RequestVoteArgs) returns (reply: RequestVoteReply)
      requires Valid()
      modifies this`role, this`currentTerm, this`votedFor
      ensures Valid()
      ensures VoteOutcome(State(), reply) == OnRequestVote(old(State()), args)
    {
      var voteGranted, forget := false, false;
      if args.term >= currentTerm {
        if args.term > currentTerm {
          currentTerm := args.term;
          if role != Follower {
            role := Follower;
            forget := true;
          }
        }
        if (votedFor == -1 || votedFor == args.candidateId) && IsCandUpToDate(log, args) {
          voteGranted := true;
          votedFor := args.candidateId;
        }
      }
      reply := RequestVoteReply(currentTerm, voteGranted);
      if forget {
        votedFor := -1;
      }
    }

    /** An election timeout: the next term, a vote for oneself, and the request for the others. */
    method StartElection() returns (args: RequestVoteArgs)
      requires Valid() && role != Leader
      modifies this`role, this`currentTerm, this`votedFor, this`votesGot
      ensures Valid() && State() == Campaign(old(State())) && args == VoteRequest(State())
    {
      role := Candidate;
      currentTerm := currentTerm + 1;
      votedFor := me;
      votesGot := 1;
      args := RequestVoteArgs(currentTerm, me, log[|log| - 1].index, log[|log| - 1].term);
    }

    /** A vote reply, whether or not the peer is still a candidate of the term that asked. */
    method HandleVoteReply(reply: RequestVoteReply)
      requires Valid()
      modifies this`role, this`currentTerm, this`votedFor, this`votesGot, this`nextIndex, this`matchIndex
      ensures Valid() && State() == CountVote(old(State()), reply)
    {
      if reply.term > currentTerm {
        currentTerm := reply.term;
        role := Follower;
        votedFor := -1;
        return;
      }
      if reply.voteGranted {
        votesGot := votesGot + 1;
        if IsElected(votesGot, numPeers) {
          role := Leader;
          ToLeader();
        }
      }
    }

    /** The set-up of a new leader: every follower is expected to be up to date. */
    method ToLeader()
      requires Valid() && role == Leader
      modifies this`nextIndex, this`matchIndex
      ensures Valid() && fresh(nextIndex) && fresh(matchIndex) && State() == Lead(old(State()))
    {
      nextIndex := new int[numPeers](_ => 0);
      matchIndex := new nat[numPeers](_ => 0);
      for si := 0 to numPeers
        invariant nextIndex.Length == numPeers && matchIndex.Length == numPeers
        invariant fresh(nextIndex) && fresh(matchIndex)
        invariant forall k :: 0 <= k < numPeers ==>
            nextIndex[k] == (if k < si && k != me then |log| else 0) && matchIndex[k] == 0
      {
        if si != me {
          nextIndex[si] := |log|;
          matchIndex[si] := 0;
        }
      }
    }

    method Start(command: Command) returns (index: int, term: int, isLeader: bool)
      requires Valid()
      modifies this`log
      ensures Valid() && State() == OnStart(old(State()), command)
      ensures isLeader == (role == Leader)
      ensures isLeader ==>
        term == currentTerm && 0 <= index < |log| && log[index] == LogEntry(command, currentTerm, index)
      ensures !isLeader ==> index == -1 && term == -1
    {
      isLeader := role == Leader;
      if !isLeader { return -1, -1, isLeader; }
      index, term := |log|, currentTerm;
      log := log + [LogEntry(command, currentTerm, |log|)];
    }

    /** What is sent: one request to each follower, in order of their numbers. */
    method Replicate() returns (sent: seq<(nat, AppendEntriesArgs)>)
      requires Valid() && role == Leader
      requires forall f :: 0 <= f < numPeers && f != me ==> nextIndex[f] >= 1
      ensures forall f: nat, args :: (f, args) in sent <==>
          f < numPeers && f != me && args == Replication(State(), nextIndex[f])
      ensures forall i, j :: 0 <= i < j < |sent| ==> sent[i].0 < sent[j].0
    {
      sent := [];
      for si := 0 to numPeers
        invariant forall i, j :: 0 <= i < j < |sent| ==> sent[i].0 < sent[j].0
        invariant forall i :: 0 <= i < |sent| ==> sent[i].0 < si
        invariant forall f: nat, args :: (f, args) in sent <==>
            f < si && f != me && args == Replication(State(), nextIndex[f])
      {
        if si != me {
          var last := |log| - 1;
          var args := AppendEntriesArgs(currentTerm, me, last, log[last].term, [], commitIndex);
          if last >= nextIndex[si] {
            var prev := nextIndex[si] - 1;
            args := args.(prevLogIndex := prev, prevLogTerm := log[prev].term, entries := log[nextIndex[si]..]);
          }
          sent := sent + [(si, args)];
        }
      }
    }

    method AppendEntries(args: AppendEntriesArgs) returns (reply: AppendEntriesReply)
      requires Valid() && WellFormed(args)
      modifies this`role, this`currentTerm, this`votedFor, this`log, this`commitIndex, this`applyCh
      ensures Valid()
      ensures var out := OnAppendEntries(old(State()), args);
        State() == out.peer && reply == out.reply && applyCh == old(applyCh) + out.sent
    {
      var heartbeat := |args.entries| == 0;
      if args.term < currentTerm {
        return AppendEntriesReply(me, currentTerm, 0, heartbeat, false);
      }
      AdoptTerm(args.term);
      if args.prevLogTerm != -1 {
        if |log| - 1 < args.prevLogIndex || log[args.prevLogIndex].term != args.prevLogTerm {
          return AppendEntriesReply(me, currentTerm, 0, heartbeat, false);
        }
      }
      reply := AcceptEntries(args);
    }

    method AdoptTerm(term: nat)
      modifies this`role, this`currentTerm, this`votedFor
      ensures State() == Adopt(old(State()), term)
    {
      if term > currentTerm || role == Candidate {
        currentTerm := term;
        if role != Follower {
          role := Follower;
          votedFor := -1;
        }
      }
    }

    method AcceptEntries(args: AppendEntriesArgs) returns (reply: AppendEntriesReply)
      requires Valid() && WellFormed(args) && args.prevLogIndex < |log|
      modifies this`log, this`commitIndex, this`applyCh
      ensures Valid()
      ensures var out := Accept(old(State()), args);
        State() == out.peer && reply == out.reply && applyCh == old(applyCh) + out.sent
    {
      MergeEntries(args.prevLogIndex, args.entries);
      FollowCommit(args.leaderCommit);
      reply := AppendEntriesReply(me, currentTerm, |log| - 1, |args.entries| == 0, true);
    }

    /** The commit index of a follower, and the delivery of what it newly covers. */
    method FollowCommit(leaderCommit: nat)
      requires Valid()
      modifies this`commitIndex, this`applyCh
      ensures commitIndex ==
        if leaderCommit > old(commitIndex) then Min(leaderCommit, LastIndex(log)) else old(commitIndex)
      ensures applyCh == old(applyCh) + Deliveries(log, old(commitIndex), commitIndex)
    {
      if leaderCommit > commitIndex {
        var oldCommitIndex := commitIndex;
        commitIndex := Min(leaderCommit, log[|log| - 1].index);
        Apply(oldCommitIndex, commitIndex);
      }
    }

    method MergeEntries(prev: int, entries: seq<LogEntry>)
      requires Valid() && -1 <= prev < |log| && Contiguous(prev, entries)
      modifies this`log
      ensures Valid() && log == Merge(old(log), prev, entries)
    {
      ghost var was := log;
      var inLog := MarkPresent(prev, entries);
      AppendMissing(entries, inLog, FirstNew(was, prev, entries, 0));
      MergeKeepsIndexed(was, prev, entries);
    }

    /** The first loop of the handler: mark the entries already in the log, and truncate at the first conflict. */
    method MarkPresent(prev: int, entries: seq<LogEntry>) returns (inLog: map<nat, bool>)
      requires Valid() && -1 <= prev < |log| && Contiguous(prev, entries)
      modifies this`log
      ensures forall k :: k in inLog <==> 0 <= k < FirstNew(old(log), prev, entries, 0)
      ensures var first := FirstNew(old(log), prev, entries, 0);
        log == if first == |entries| then old(log) else old(log)[..prev + 1 + first]
    {
      ghost var first := FirstNew(log, prev, entries, 0);
      ghost var was := log;
      inLog := map[];
      for i := 0 to |entries|
        invariant log == was
        invariant i <= first ==> forall k :: k in inLog <==> 0 <= k < i
        invariant i > first ==> |was| == prev + 1 + first && forall k :: k in inLog <==> 0 <= k < first
      {
        var index := entries[i].index;
        if index < |log| {
          if log[index].term != entries[i].term {
            assert New(was, prev, entries, i);
            log := log[..index];
            break;
          } else {
            assert !New(was, prev, entries, i);
            inLog := inLog[i := true];
          }
        } else {
          assert New(was, prev, entries, i);
        }
      }
    }

    /** The second loop: append from the first unmarked entry on. */
    method AppendMissing(entries: seq<LogEntry>, inLog: map<nat, bool>, ghost first: nat)
      requires first <= |entries| && forall k :: k in inLog <==> 0 <= k < first
      modifies this`log
      ensures log == old(log) + entries[first..]
    {
      var needAppend := false;
      for i := 0 to |entries|
        invariant needAppend == (i > first)
        invariant log == if i <= first then old(log) else old(log) + entries[first..i]
      {
        if i !in inLog {
          needAppend := true;
        }
        if needAppend {
          log := log + [entries[i]];
        }
      }
    }

    /** Send the entries from + 1 .. to on the apply channel. */
    method Apply(from: nat, to: nat)
      requires Valid() && to < |log|
      modifies this`applyCh
      ensures applyCh == old(applyCh) + Deliveries(log, from, to)
    {
      var next := from;
      while next < to
        invariant from <= next && (from <= to ==> next <= to)
        invariant applyCh + Deliveries(log, next, to) == old(applyCh) + Deliveries(log, from, to)
      {
        next := next + 1;
        applyCh := applyCh + [ApplyMsg(true, log[next].command, log[next].index)];
      }
    }

    /** The number of peers, this one included, whose log is known to reach `index`. */
    method CountReplicas(index: nat) returns (count: nat)
      requires Valid() && me < numPeers
      ensures count == |Replicas(State(), index)|
    {
      ghost var p := State();
      count := 1;
      NoneSeen(p, index);
      for si := 0 to numPeers
        invariant count == |Seen(p, index, si)|
      {
        NextSeen(p, index, si);
        if si != me && matchIndex[si] >= index {
          count := count + 1;
        }
      }
      AllSeen(p, index);
    }

    method CommitAt(index: nat)
      requires Valid() && me < numPeers && commitIndex < |log| && (index > commitIndex ==> index < |log|)
      modifies this`commitIndex, this`lastApplied, this`applyCh
      ensures Valid()
      ensures var out := RaftHandlers.CommitAt(old(State()), index);
        State() == out.peer && applyCh == old(applyCh) + out.sent
    {
      if index <= commitIndex { return; }
      var count := CountReplicas(index);
      if count > numPeers / 2 && log[index].term == currentTerm {
        commitIndex := index;
      }
      if lastApplied < commitIndex {
        Apply(lastApplied, commitIndex);
        lastApplied := commitIndex;
      }
    }

    /** A reply to an append request, whether or not the peer is still the leader of the term that sent it. */
    method HandleReply(reply: AppendEntriesReply)
      requires Valid() && me < numPeers && reply.followerId < numPeers && commitIndex < |log|
      requires !ReadsPastEnd(State(), reply)
      modifies this`role, this`currentTerm, this`votedFor, this`commitIndex, this`lastApplied, this`applyCh, nextIndex,
        matchIndex
      ensures Valid()
      ensures var out := TakeReply(old(State()), reply);
        State() == out.peer && applyCh == old(applyCh) + out.sent
    {
      if reply.term > currentTerm {
        currentTerm := reply.term;
        role := Follower;
        votedFor := -1;
        return;
      }
      var f := reply.followerId;
      if reply.success {
        if reply.isHeartbeat { return; }
        if matchIndex[f] < reply.lastLogIndex {
          matchIndex[f] := reply.lastLogIndex;
        }
        nextIndex[f] := reply.lastLogIndex + 1;
        assert State() == Acknowledge(old(State()), f, reply.lastLogIndex);
        CommitAt(reply.lastLogIndex);
      } else {
        nextIndex[f] := nextIndex[f] - 1;
      }
    }
  }

  /** The replicas found once the loop has looked at the peers below `si`. */
  ghost function Seen(p: Peer, index: nat, si: nat): set<nat> {
    set k: nat | k in Replicas(p, index) && (k == p.me || k < si)
  }

  lemma NoneSeen(p: Peer, index: nat)
    requires p.me < p.numPeers
    ensures Seen(p, index, 0) == {p.me}
  {}

  lemma NextSeen(p: Peer, index: nat, si: nat)
    requires si < p.numPeers == |p.matchIndex|
    ensures |Seen(p, index, si + 1)| == |Seen(p, index, si)| + if si != p.me && p.matchIndex[si] >= index then 1 else 0
  {
    if si != p.me && p.matchIndex[si] >= index {
      assert Seen(p, index, si + 1) == Seen(p, index, si) + {si};
    } else {
      assert Seen(p, index, si + 1) == Seen(p, index, si);
    }
  }

  lemma AllSeen(p: Peer, index: nat)
    ensures Seen(p, index, p.numPeers) == Replicas(p, index)
  {}
}
