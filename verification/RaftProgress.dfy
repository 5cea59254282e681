/** What the handlers bring about. */
module RaftProgress {
  import opened Runs
  import opened RaftTypes
  import opened RaftLog
  import opened RaftHandlers
  import opened RaftWorld
  import opened RaftInvariant
  import opened RaftReplication
  import opened RaftVoting
  import opened RaftTheorems

  // Safety would also hold of peers that grant too few votes, accept too little or commit too late. These theorems
  // say, for every run, exactly when a vote is granted, an election won, a request accepted and an entry committed,
  // in terms of logs, terms and counts.

  // ---------- Votes ----------

  /** A log whose last entry has this term and index is at least as up to date as `log`. */
  predicate UpToDate(log: seq<LogEntry>, lastTerm: nat, lastIndex: nat)
    requires |log| > 0
  {
    lastTerm > log[|log| - 1].term || (lastTerm == log[|log| - 1].term && lastIndex >= |log| - 1)
  }

  /** A vote is granted exactly if the request is not stale, the voter is free to vote for the candidate, and the log
      with which the candidate asked ends in a later term, or in the same and is at least as long. */
  lemma VoteGrantedIff(ws: seq<World>, n: nat, i: nat, key: CallKey)
    requires Run(ws, n) && i < |ws| && key in ws[i].calls && ws[i].calls[key].Asked?
    ensures key.voter < |ws[i].peers| && |ws[i].peers[key.voter].log| > 0
    ensures Candidacy(key.term, key.cand) in ws[i].candLogs && |ws[i].candLogs[Candidacy(key.term, key.cand)]| > 0
    ensures var p, cand := ws[i].peers[key.voter], ws[i].candLogs[Candidacy(key.term, key.cand)];
      OnRequestVote(p, ws[i].calls[key].args).reply.voteGranted
      <==> && key.term >= p.currentTerm && (p.votedFor == -1 || p.votedFor == key.cand)
           && UpToDate(p.log, cand[|cand| - 1].term, |cand| - 1)
  {
    RunInv(ws, n, i);
    var w := ws[i];
    assert CallOk(w, key) && PeerLogOk(w, key.voter);
    IndexedLog(w.logs, w.candLogs[Candidacy(key.term, key.cand)], key.term - 1);
  }

  /** What a vote request leaves: the later of the two terms, which is the reply's, and the role and the vote that go
      with it. Only a peer that gives up another role forgets its vote. */
  lemma VoteRequestLeaves(ws: seq<World>, n: nat, i: nat, key: CallKey)
    requires Run(ws, n) && i < |ws| && key in ws[i].calls && ws[i].calls[key].Asked? && key.voter < |ws[i].peers|
    ensures var p := ws[i].peers[key.voter]; var out := OnRequestVote(p, ws[i].calls[key].args);
      && out.reply.term == out.peer.currentTerm == (if key.term > p.currentTerm then key.term else p.currentTerm)
      && out.peer.role == (if key.term > p.currentTerm then Follower else p.role)
      && out.peer.votedFor == (if key.term > p.currentTerm && !p.role.Follower? then -1
                               else if out.reply.voteGranted then key.cand else p.votedFor)
      && out.peer == p.(currentTerm := out.peer.currentTerm, role := out.peer.role, votedFor := out.peer.votedFor)
  {
    RunInv(ws, n, i);
    assert CallOk(ws[i], key);
  }

  /** A candidate that counts one more vote leads exactly if the distinct peers that have voted for it are a majority
      then; it expects every follower to be up to date. */
  lemma ElectedIff(ws: seq<World>, n: nat, i: nat, key: CallKey)
    requires Run(ws, n) && i < |ws| && key in ws[i].calls && ws[i].calls[key].Answered?
    requires key.cand < |ws[i].peers| && VoteReplyActs(ws[i].peers[key.cand], key.term)
    requires ws[i].calls[key].reply.voteGranted && ws[i].calls[key].reply.term <= key.term
    ensures key.cand < |ws[i].counted| && key.voter !in ws[i].counted[key.cand]
    ensures var p := ws[i].peers[key.cand]; var q := OnVoteReply(p, key.term, ws[i].calls[key].reply);
      && (q.role.Leader? <==> 2 * |ws[i].counted[key.cand] + {key.voter}| > n)
      && q.currentTerm == p.currentTerm && q.log == p.log && q.votesGot == |ws[i].counted[key.cand] + {key.voter}|
      && |q.nextIndex| == |q.matchIndex| == n
      && forall f :: q.role.Leader? && 0 <= f < n && f != key.cand ==>
           q.nextIndex[f] == |p.log| && q.matchIndex[f] == 0
  {
    RunInv(ws, n, i);
    assert CallOk(ws[i], key) && CandidateOk(ws[i], key.cand);
  }

  // ---------- A later term ----------

  /** A follower of at least term `term` that is free to vote: it grants the first request of its or a later term by
      which the candidate is up to date. */
  ghost predicate FreeToVote(q: Peer, term: nat) {
    && q.role.Follower? && q.currentTerm == term && |q.log| > 0
    && forall args: RequestVoteArgs :: args.term >= term && UpToDate(q.log, args.lastLogTerm, args.lastLogIndex) ==>
         OnRequestVote(q, args).reply.voteGranted
  }

  /** A candidate that gets a vote reply of a later term follows that term, and is free to vote. */
  lemma LaterTermFreesCandidate(ws: seq<World>, n: nat, i: nat, key: CallKey)
    requires Run(ws, n) && i < |ws| && key in ws[i].calls && ws[i].calls[key].Answered?
    requires key.cand < |ws[i].peers| && VoteReplyActs(ws[i].peers[key.cand], key.term)
    requires ws[i].calls[key].reply.term > key.term
    ensures FreeToVote(OnVoteReply(ws[i].peers[key.cand], key.term, ws[i].calls[key].reply),
                       ws[i].calls[key].reply.term)
  {
    RunInv(ws, n, i);
  }

  /** So does a leader that gets such a reply to an append request. */
  lemma LaterTermFreesLeader(ws: seq<World>, n: nat, i: nat, a: Ack)
    requires Run(ws, n) && i < |ws| && a in ws[i].acks
    requires a.leader < |ws[i].peers| && AppendReplyActs(ws[i].peers[a.leader], a.sentTerm) && a.reply.term > a.sentTerm
    ensures a.reply.followerId < |ws[i].peers[a.leader].nextIndex|
      && a.reply.followerId < |ws[i].peers[a.leader].matchIndex|
    ensures FreeToVote(OnAppendReply(ws[i].peers[a.leader], a.sentTerm, a.reply).peer, a.reply.term)
  {
    RunInv(ws, n, i);
  }

  // ---------- Append requests ----------

  /** The request takes the follower to the end of the leader's log, and tells it the leader's commit index. */
  ghost predicate Carries(m: Append, p: Peer, f: nat) {
    var a := m.args;
    && m.to == f && a.term == p.currentTerm && a.leaderId == p.me && a.leaderCommit == p.commitIndex
    && 0 <= a.prevLogIndex < |p.log| && a.prevLogTerm == p.log[a.prevLogIndex].term
    && a.entries == p.log[a.prevLogIndex + 1..]
  }

  /** A leader that replicates sends every follower, except one with a next index below 1, such a request, which
      starts at the next index if the follower is behind, and is a heartbeat otherwise. */
  lemma ReplicateCarries(ws: seq<World>, n: nat, i: nat, leader: nat, f: nat) returns (m: Append)
    requires Run(ws, n) && i < |ws| && Enabled(ws[i], Replicate(leader)) && f < n && f != leader
    requires |ws[i].peers[leader].nextIndex| == n && ws[i].peers[leader].nextIndex[f] >= 1
    ensures Shape(ws[i]) && m in After(ws[i], Replicate(leader)).appends && Carries(m, ws[i].peers[leader], f)
    ensures var p := ws[i].peers[leader];
      |m.args.entries| == if p.nextIndex[f] < |p.log| then |p.log| - p.nextIndex[f] else 0
  {
    RunInv(ws, n, i);
    var p := ws[i].peers[leader];
    assert PeerLogOk(ws[i], leader) && LeaderViewOk(ws[i], leader, f);
    m := Append(f, Replication(p, p.nextIndex[f]));
  }

  /** A request is accepted exactly if it is not stale and the log has the entry before it, with that entry's term.
      The follower then has the larger of the two commit indices, and reports its whole length. */
  lemma AppendAcceptedIff(ws: seq<World>, n: nat, i: nat, m: Append)
    requires Run(ws, n) && i < |ws| && m in ws[i].appends
    ensures m.to < |ws[i].peers| && |ws[i].peers[m.to].log| > 0 && WellFormed(m.args) && m.args.prevLogIndex >= 0
    ensures var p := ws[i].peers[m.to]; var out := OnAppendEntries(p, m.args);
      && (out.reply.success <==> && m.args.term >= p.currentTerm && m.args.prevLogIndex < |p.log|
                                 && p.log[m.args.prevLogIndex].term == m.args.prevLogTerm)
      && out.reply.term == out.peer.currentTerm == (if m.args.term > p.currentTerm then m.args.term else p.currentTerm)
      && out.reply.followerId == m.to && (out.reply.isHeartbeat <==> m.args.entries == [])
      && (m.args.term >= p.currentTerm ==> out.peer.role.Follower?)
      && (out.reply.success ==>
            && out.reply.lastLogIndex == |out.peer.log| - 1 >= m.args.prevLogIndex + |m.args.entries|
            && out.peer.commitIndex
               == if m.args.leaderCommit > p.commitIndex then m.args.leaderCommit else p.commitIndex)
  {
    RunInv(ws, n, i);
    RequestsAreHandled(ws, n, i, m);
    AcceptedIff(ws[i], m);
  }

  lemma AcceptedIff(w: World, m: Append)
    requires Inv(w) && m in w.appends
    ensures var p := w.peers[m.to]; var out := OnAppendEntries(p, m.args);
      && (out.reply.success <==> && m.args.term >= p.currentTerm && 0 <= m.args.prevLogIndex < |p.log|
                                 && p.log[m.args.prevLogIndex].term == m.args.prevLogTerm)
      && out.reply.term == out.peer.currentTerm == (if m.args.term > p.currentTerm then m.args.term else p.currentTerm)
      && out.reply.followerId == m.to && (out.reply.isHeartbeat <==> m.args.entries == [])
      && (m.args.term >= p.currentTerm ==> out.peer.role.Follower?)
      && (out.reply.success ==>
            && out.reply.lastLogIndex == |out.peer.log| - 1 >= m.args.prevLogIndex + |m.args.entries|
            && out.peer.commitIndex
               == if m.args.leaderCommit > p.commitIndex then m.args.leaderCommit else p.commitIndex)
  {
    var p := w.peers[m.to];
    assert AppendOk(w, m) && PeerLogOk(w, m.to);
    if m.args.term >= p.currentTerm {
      HandlerReceived(p, m.args);
      IndexedLog(w.logs, p.log, p.currentTerm);
      if OnAppendEntries(p, m.args).reply.success {
        MergeEffect(p.log, m.args.prevLogIndex, m.args.entries);
        MergeKeepsIndexed(p.log, m.args.prevLogIndex, m.args.entries);
      }
    }
  }

  /** From the leader to the application: a follower that accepts such a request, whenever it arrives, has committed
      and delivered all that the leader had committed when it sent it. */
  lemma FollowerCatchesUp(ws: seq<World>, n: nat, i: nat, j: nat, leader: nat, m: Append)
    requires Run(ws, n) && i <= j < |ws| && leader < |ws[i].peers| && ws[i].peers[leader].role.Leader?
    requires m in ws[j].appends && Carries(m, ws[i].peers[leader], m.to) && m.to < |ws[j].peers|
    requires |ws[j].peers[m.to].log| > 0 && WellFormed(m.args)
    requires OnAppendEntries(ws[j].peers[m.to], m.args).reply.success
    ensures Shape(ws[j])
    ensures var p, v := ws[i].peers[leader], After(ws[j], DeliverAppend(m)); var q := v.peers[m.to];
      && p.commitIndex < |p.log| && p.commitIndex <= q.commitIndex < |q.log| && m.to < |v.applied|
      && q.log[..p.commitIndex + 1] == p.log[..p.commitIndex + 1]
      && forall k :: 1 <= k <= p.commitIndex ==> ApplyMsg(true, p.log[k].command, k) in v.applied[m.to]
  {
    WithinLog(ws, n, i, leader);
    TakesCommit(ws, n, j, m);
    var p := ws[i].peers[leader];
    var more := RequestTaken(ws, n, i, j, leader, m);
    AllDelivered(more, n, j + 1, m.to, p);
  }

  /** Up to any moment a run may go on with any step that is enabled then. */
  lemma GoOn(ws: seq<World>, n: nat, j: nat, step: Step) returns (more: seq<World>)
    requires Run(ws, n) && j < |ws| && Enabled(ws[j], step)
    ensures Shape(ws[j]) && Run(more, n) && |more| == j + 2 && more[j + 1] == After(ws[j], step)
    ensures forall i :: 0 <= i <= j ==> more[i] == ws[i]
    ensures |more[j + 1].peers| == n
  {
    RunInv(ws, n, j);
    more := ws[..j + 1] + [After(ws[j], step)];
    Before(ws, Init(n), Next, j + 1);
    assert Next(ws[j], After(ws[j], step));
    Extended(ws[..j + 1], Init(n), Next, After(ws[j], step));
    RunInv(more, n, j + 1);
  }

  /** The run goes on with the delivery of the request; the follower's log then begins with the leader's. */
  lemma RequestTaken(ws: seq<World>, n: nat, i: nat, j: nat, leader: nat, m: Append) returns (more: seq<World>)
    requires Run(ws, n) && i <= j < |ws| && leader < |ws[i].peers| && |ws[i].peers[leader].log| > 0
    requires m in ws[j].appends && Carries(m, ws[i].peers[leader], m.to) && m.to < |ws[j].peers|
    requires |ws[j].peers[m.to].log| > 0 && WellFormed(m.args)
    requires OnAppendEntries(ws[j].peers[m.to], m.args).reply.success
    ensures Shape(ws[j]) && Run(more, n) && |more| == j + 2 && more[j + 1] == After(ws[j], DeliverAppend(m))
    ensures m.to < |more[j + 1].peers| && ws[i].peers[leader].log <= more[j + 1].peers[m.to].log
  {
    var p := ws[i].peers[leader];
    more := GoOn(ws, n, j, DeliverAppend(m));
    AcceptedEnd(ws[j].peers[m.to], m, p);
    LogMatching(more, n, i, j + 1, leader, m.to, |p.log| - 1);
    assert p.log[..|p.log|] == p.log;
  }

  lemma TakesCommit(ws: seq<World>, n: nat, j: nat, m: Append)
    requires Run(ws, n) && j < |ws| && m in ws[j].appends && m.to < |ws[j].peers|
    requires |ws[j].peers[m.to].log| > 0 && WellFormed(m.args)
    requires OnAppendEntries(ws[j].peers[m.to], m.args).reply.success
    ensures Shape(ws[j]) && m.args.leaderCommit <= After(ws[j], DeliverAppend(m)).peers[m.to].commitIndex
  {
    RunInv(ws, n, j);
    AppendAcceptedIff(ws, n, j, m);
  }

  lemma WithinLog(ws: seq<World>, n: nat, i: nat, a: nat)
    requires Run(ws, n) && i < |ws| && a < |ws[i].peers|
    ensures ws[i].peers[a].commitIndex < |ws[i].peers[a].log|
  {
    RunInv(ws, n, i);
    assert DeliveredOk(ws[i].peers[a], ws[i].applied[a]);
  }

  lemma AllDelivered(ws: seq<World>, n: nat, j: nat, f: nat, p: Peer)
    requires Run(ws, n) && j < |ws| && f < |ws[j].peers| && p.commitIndex < |p.log| && p.log <= ws[j].peers[f].log
    requires p.commitIndex <= ws[j].peers[f].commitIndex
    ensures ws[j].peers[f].commitIndex < |ws[j].peers[f].log| && f < |ws[j].applied|
    ensures forall k :: 1 <= k <= p.commitIndex ==> ApplyMsg(true, p.log[k].command, k) in ws[j].applied[f]
  {
    RunInv(ws, n, j);
    assert DeliveredOk(ws[j].peers[f], ws[j].applied[f]);
  }

  /** The follower's log then has the leader's last entry, by its term. */
  lemma AcceptedEnd(r: Peer, m: Append, p: Peer)
    requires Carries(m, p, m.to) && |r.log| > 0 && WellFormed(m.args)
    requires OnAppendEntries(r, m.args).reply.success
    ensures var q := OnAppendEntries(r, m.args).peer;
      |q.log| >= |p.log| && q.log[|p.log| - 1].term == p.log[|p.log| - 1].term
  {
    MergeEffect(r.log, m.args.prevLogIndex, m.args.entries);
    var q := OnAppendEntries(r, m.args).peer;
    if m.args.entries != [] {
      var x := |m.args.entries| - 1;
      assert q.log[m.args.prevLogIndex + 1 + x].term == m.args.entries[x].term;
    }
  }

  // ---------- Commitment ----------

  /** The peers that have the leader's log up to `index`, as far as the leader knows. */
  function Holders(matched: seq<nat>, leader: nat, index: nat): set<nat> {
    set f | 0 <= f < |matched| && (f == leader || matched[f] >= index)
  }

  /** A leader that takes an acknowledgement in its term knows the follower at least that far, and sends from there.
      If the acknowledged index is above its commit index, it becomes the commit index exactly if the entry there is
      of the leader's term and a majority has it; the leader then has delivered up to there. */
  lemma CommitIff(ws: seq<World>, n: nat, i: nat, a: Ack)
    requires Run(ws, n) && i < |ws| && a in ws[i].acks && a.leader < |ws[i].peers|
    requires AppendReplyActs(ws[i].peers[a.leader], a.sentTerm)
    requires a.reply.success && !a.reply.isHeartbeat && a.reply.term <= a.sentTerm
    ensures var p, f, last := ws[i].peers[a.leader], a.reply.followerId, a.reply.lastLogIndex;
      && f < n && f != a.leader && |p.nextIndex| == |p.matchIndex| == n && last < |p.log|
      && var q := OnAppendReply(p, a.sentTerm, a.reply).peer;
      && q.matchIndex == p.matchIndex[f := if p.matchIndex[f] < last then last else p.matchIndex[f]]
      && q.nextIndex == p.nextIndex[f := last + 1]
      && (if last > p.commitIndex && p.log[last].term == p.currentTerm
             && 2 * |Holders(q.matchIndex, a.leader, last)| > n
          then q.commitIndex == q.lastApplied == last
          else q.commitIndex == p.commitIndex)
  {
    RunInv(ws, n, i);
    RepliesAreHandled(ws, n, i, a, a.reply.followerId);
    var p := ws[i].peers[a.leader];
    assert DeliveredOk(p, ws[i].applied[a.leader]);
    var q := Acknowledge(p, a.reply.followerId, a.reply.lastLogIndex);
    assert Holders(q.matchIndex, a.leader, a.reply.lastLogIndex) == Replicas(q, a.reply.lastLogIndex);
  }
}
