/** What the code does without the guards. */
module RaftAsWritten {
  import opened Runs
  import opened RaftTypes
  import opened RaftHandlers
  import opened RaftWorld
  import opened RaftInvariant
  import opened RaftTheorems
  import opened RaftRuns

  // The protocol's steps let a reply act only in the role and term that sent the request, and join a timeout with
  // the term increment. The source does neither. Here its own reactions are applied to states of runs, which then
  // leave the protocol, and compared with those of the protocol.

  // ---------- A candidate before its time ----------

  /** Peers 0 and 1 both ask for peer 2's vote in term 1. */
  lemma BothAsk() returns (ws: seq<World>)
    ensures var c0, c1 := Campaign(Fresh(0, 3)), Campaign(Fresh(1, 3));
      && At(ws, 3, [c0, c1, Fresh(2, 3)])
      && CallKey(1, 0, 2) in Last(ws).calls && Last(ws).calls[CallKey(1, 0, 2)] == Asked(VoteRequest(c0))
      && CallKey(1, 1, 2) in Last(ws).calls && Last(ws).calls[CallKey(1, 1, 2)] == Asked(VoteRequest(c1))
  {
    var f0, f1, f2 := Fresh(0, 3), Fresh(1, 3), Fresh(2, 3);
    ws := Start(3);
    assert seq(3, i requires 0 <= i => Fresh(i, 3)) == [f0, f1, f2];
    ws := DoTimeout(ws, 3, [f0, f1, f2], 0);
    assert CallKey(1, 0, 2) in Last(ws).calls;
    ws := DoTimeout(ws, 3, [Campaign(f0), f1, f2], 1);
    assert CallKey(1, 1, 2) in Last(ws).calls;
  }

  /** Peer 2 has voted for peer 0, which leads term 1; peer 1 still asks for peer 2's vote in that term. */
  lemma OneLeads() returns (ws: seq<World>)
    ensures var c0, c1 := Campaign(Fresh(0, 3)), Campaign(Fresh(1, 3));
      var vote := OnRequestVote(Fresh(2, 3), VoteRequest(c0));
      var l0 := OnVoteReply(c0, 1, vote.reply);
      && At(ws, 3, [l0, c1, vote.peer]) && l0.role.Leader? && vote.reply == RequestVoteReply(1, true)
      && Append(2, Replication(l0, 1)) in Last(ws).appends
      && CallKey(1, 1, 2) in Last(ws).calls && Last(ws).calls[CallKey(1, 1, 2)] == Asked(VoteRequest(c1))
  {
    var f0, f1, f2 := Fresh(0, 3), Fresh(1, 3), Fresh(2, 3);
    var c0, c1 := Campaign(f0), Campaign(f1);
    var vote := OnRequestVote(f2, VoteRequest(c0));
    var l0 := OnVoteReply(c0, 1, vote.reply);
    assert vote.reply == RequestVoteReply(1, true) && l0.role.Leader? && l0.nextIndex[2] == 1;
    ws := BothAsk();
    ws := DoVote(ws, 3, [c0, c1, f2], CallKey(1, 0, 2), VoteRequest(c0));
    ws := DoCount(ws, 3, [c0, c1, vote.peer], CallKey(1, 0, 2), vote.reply);
    ws := DoReplicate(ws, 3, [l0, c1, vote.peer], 0);
  }

  /** If a follower becomes a candidate one step before it moves to the next term, it can vote twice. In a state of
      a run in which peer 0 leads term 1 by peer 2's vote, peer 2 times out, forgets its vote at peer 0's heartbeat,
      and gives peer 1 its vote in term 1. */
  lemma EarlyCandidateVotesTwice() returns (ws: seq<World>, m: Append, key: CallKey)
    ensures Run(ws, 3) && |Last(ws).peers| == 3 && Last(ws).peers[0].role.Leader? && Last(ws).peers[0].currentTerm == 1
    ensures m in Last(ws).appends && m.to == 2 && WellFormed(m.args)
    ensures key == CallKey(1, 1, 2) && key in Last(ws).calls && Last(ws).calls[key].Asked?
    ensures var early := BecomeCandidate(Last(ws).peers[2]);
      && |early.log| > 0
      && var calmed := OnAppendEntries(early, m.args).peer;
         var vote := OnRequestVote(calmed, Last(ws).calls[key].args);
         var leader1 := OnVoteReply(Last(ws).peers[1], 1, vote.reply);
         vote.reply.voteGranted && leader1.role.Leader? && leader1.currentTerm == 1
  {
    ws := OneLeads();
    key := CallKey(1, 1, 2);
    var c0, c1 := Campaign(Fresh(0, 3)), Campaign(Fresh(1, 3));
    var voter := OnRequestVote(Fresh(2, 3), VoteRequest(c0)).peer;
    var l0 := Last(ws).peers[0];
    m := Append(2, Replication(l0, 1));
    assert m.args == AppendEntriesArgs(1, 0, 0, 0, [], 0);
    var calmed := OnAppendEntries(BecomeCandidate(voter), m.args).peer;
    assert calmed.role.Follower? && calmed.votedFor == -1 && calmed.currentTerm == 1 && calmed.log == [SENTINEL];
  }

  /** Exactly when the early role change makes no difference to the vote that a request leaves. */
  lemma EarlyKeepsVoteIff(p: Peer, m: AppendEntriesArgs, args: RequestVoteArgs)
    requires p.role.Follower? && |p.log| > 0 && WellFormed(m)
    ensures OnAppendEntries(BecomeCandidate(p), m).peer.votedFor == OnAppendEntries(p, m).peer.votedFor
      <==> p.votedFor == -1 || m.term < p.currentTerm
    ensures OnRequestVote(BecomeCandidate(p), args).peer.votedFor == OnRequestVote(p, args).peer.votedFor
      <==> args.term <= p.currentTerm || (p.votedFor == -1 && !OnRequestVote(p, args).reply.voteGranted)
  {}

  /** Exactly when it costs a second vote: a follower that has voted in its term, and then gets an append request,
      never votes for another candidate of that term; as an early candidate it does exactly if the request is of
      that same term, and the other candidate's log is up to date. */
  lemma EarlySecondVoteIff(p: Peer, m: AppendEntriesArgs, args: RequestVoteArgs)
    requires p.role.Follower? && |p.log| > 0 && WellFormed(m) && p.votedFor != -1
    requires args.term == p.currentTerm && args.candidateId != p.votedFor
    ensures !OnRequestVote(OnAppendEntries(p, m).peer, args).reply.voteGranted
    ensures OnRequestVote(OnAppendEntries(BecomeCandidate(p), m).peer, args).reply.voteGranted
      <==> m.term == p.currentTerm && IsCandUpToDate(OnAppendEntries(p, m).peer.log, args)
  {}

  // ---------- A vote from another term ----------

  /** Peer 1 leads term 3 by peer 0's vote; the vote that peer 2 gave peer 0 in term 1 is still on its way. */
  lemma VoteOnItsWay() returns (ws: seq<World>)
    ensures Run(ws, 3) && Shape(Last(ws)) && |Last(ws).peers| == 3
    ensures var key := CallKey(1, 0, 2);
      key in Last(ws).calls && Last(ws).calls[key] == Answered(RequestVoteReply(1, true))
    ensures var p := Last(ws).peers[0]; p.role.Follower? && p.currentTerm == 3 && p.votesGot == 1 && p.numPeers == 3
    ensures var q := Last(ws).peers[1]; q.role.Leader? && q.currentTerm == 3
  {
    var f0, f1, f2 := Fresh(0, 3), Fresh(1, 3), Fresh(2, 3);
    var c0 := Campaign(f0);
    var vote := OnRequestVote(f2, VoteRequest(c0));
    assert vote.reply == RequestVoteReply(1, true);
    ws := Start(3);
    assert seq(3, i requires 0 <= i => Fresh(i, 3)) == [f0, f1, f2];
    ws := DoTimeout(ws, 3, [f0, f1, f2], 0);
    assert CallKey(1, 0, 2) in Last(ws).calls;
    ws := DoVote(ws, 3, [c0, f1, f2], CallKey(1, 0, 2), VoteRequest(c0));
    ws := Overtaken(ws, c0, vote.peer);
  }

  lemma Overtaken(ws: seq<World>, c0: Peer, v2: Peer) returns (more: seq<World>)
    requires c0 == Campaign(Fresh(0, 3)) && At(ws, 3, [c0, Fresh(1, 3), v2])
    requires CallKey(1, 0, 2) in Last(ws).calls
      && Last(ws).calls[CallKey(1, 0, 2)] == Answered(RequestVoteReply(1, true))
    ensures Run(more, 3) && Shape(Last(more)) && |Last(more).peers| == 3
    ensures var key := CallKey(1, 0, 2);
      key in Last(more).calls && Last(more).calls[key] == Answered(RequestVoteReply(1, true))
    ensures var p := Last(more).peers[0]; p.role.Follower? && p.currentTerm == 3 && p.votesGot == 1 && p.numPeers == 3
    ensures var q := Last(more).peers[1]; q.role.Leader? && q.currentTerm == 3
  {
    var c1 := Campaign(Campaign(Fresh(1, 3)));
    var down := OnRequestVote(c0, VoteRequest(c1)).peer;
    assert down == c0.(role := Follower, votedFor := -1, currentTerm := 2);
    more := DoTimeout(ws, 3, [c0, Fresh(1, 3), v2], 1);
    more := DoTimeout(more, 3, [c0, Campaign(Fresh(1, 3)), v2], 1);
    assert CallKey(2, 1, 0) in Last(more).calls;
    more := DoVote(more, 3, [c0, c1, v2], CallKey(2, 1, 0), VoteRequest(c1));
    more := VotesForOther(more, down, c1, v2);
  }

  lemma VotesForOther(ws: seq<World>, down: Peer, c1: Peer, v2: Peer) returns (more: seq<World>)
    requires c1 == Campaign(Campaign(Fresh(1, 3))) && At(ws, 3, [down, c1, v2])
    requires down == Campaign(Fresh(0, 3)).(role := Follower, votedFor := -1, currentTerm := 2)
    requires CallKey(1, 0, 2) in Last(ws).calls
      && Last(ws).calls[CallKey(1, 0, 2)] == Answered(RequestVoteReply(1, true))
    ensures Run(more, 3) && Shape(Last(more)) && |Last(more).peers| == 3
    ensures var key := CallKey(1, 0, 2);
      key in Last(more).calls && Last(more).calls[key] == Answered(RequestVoteReply(1, true))
    ensures var p := Last(more).peers[0]; p.role.Follower? && p.currentTerm == 3 && p.votesGot == 1 && p.numPeers == 3
    ensures var q := Last(more).peers[1]; q.role.Leader? && q.currentTerm == 3
  {
    var d1 := Campaign(c1);
    var vote := OnRequestVote(down, VoteRequest(d1));
    assert vote.reply == RequestVoteReply(3, true);
    more := DoTimeout(ws, 3, [down, c1, v2], 1);
    assert CallKey(3, 1, 0) in Last(more).calls;
    more := DoVote(more, 3, [down, d1, v2], CallKey(3, 1, 0), VoteRequest(d1));
    more := DoCount(more, 3, [vote.peer, d1, v2], CallKey(3, 1, 0), vote.reply);
  }

  /** If a vote is counted without looking at role and term again, a run comes to a state in which a second peer
      turns leader of the term: peer 0 has voted for peer 1 in term 3 and then counts its vote of term 1. */
  lemma StaleVoteMakesTwoLeaders() returns (ws: seq<World>, key: CallKey)
    ensures Run(ws, 3) && |Last(ws).peers| == 3 && key in Last(ws).calls && Last(ws).calls[key].Answered?
      && key.cand == 0
    ensures var p, q := Last(ws).peers[0], Last(ws).peers[1];
      var late := CountVote(p, Last(ws).calls[key].reply);
      && q.role.Leader? && late.role.Leader? && late.currentTerm == q.currentTerm
      && OnVoteReply(p, key.term, Last(ws).calls[key].reply) == p
  {
    ws := VoteOnItsWay();
    key := CallKey(1, 0, 2);
  }

  /** Exactly when counting as written does what the protocol does: the peer is still a candidate of the term that
      asked, or the reply has neither a vote nor a later term. */
  lemma VoteReplyAgreesIff(p: Peer, sentTerm: nat, reply: RequestVoteReply)
    ensures CountVote(p, reply) == OnVoteReply(p, sentTerm, reply)
      <==> VoteReplyActs(p, sentTerm) || (reply.term <= p.currentTerm && !reply.voteGranted)
  {
    if reply.term <= p.currentTerm && reply.voteGranted { assert CountVote(p, reply).votesGot == p.votesGot + 1; }
  }

  // ---------- A next index below 1 ----------

  /** Peer 0 leads term 1 by peer 1's vote. */
  lemma Elected() returns (ws: seq<World>, p: Peer, q: Peer)
    ensures At(ws, 3, [p, q, Fresh(2, 3)]) && p == Lead(Campaign(Fresh(0, 3)).(votesGot := 2))
    ensures q == Fresh(1, 3).(votedFor := 0, currentTerm := 1)
  {
    var f0, f1, f2 := Fresh(0, 3), Fresh(1, 3), Fresh(2, 3);
    var c0 := Campaign(f0);
    var vote := OnRequestVote(f1, VoteRequest(c0));
    assert vote.reply == RequestVoteReply(1, true);
    p, q := OnVoteReply(c0, 1, vote.reply), vote.peer;
    ws := Start(3);
    assert seq(3, i requires 0 <= i => Fresh(i, 3)) == [f0, f1, f2];
    ws := DoTimeout(ws, 3, [f0, f1, f2], 0);
    assert CallKey(1, 0, 1) in Last(ws).calls;
    ws := DoVote(ws, 3, [c0, f1, f2], CallKey(1, 0, 1), VoteRequest(c0));
    ws := DoCount(ws, 3, [c0, q, f2], CallKey(1, 0, 1), vote.reply);
  }

  /** With one entry nobody else has, it loses its role to peer 1's request for term 2. */
  lemma LoneEntry() returns (ws: seq<World>, p: Peer, q: Peer)
    ensures At(ws, 3, [p, q, Fresh(2, 3)]) && p.me == 0 && p.numPeers == 3 && p.role.Follower? && p.currentTerm == 2
    ensures p.log == [SENTINEL, LogEntry(7, 1, 1)] && p.commitIndex == p.lastApplied == 0
  {
    var l0, v1, f2 := Fresh(0, 3), Fresh(1, 3), Fresh(2, 3);
    ws, l0, v1 := Elected();
    var s0 := OnStart(l0, 7);
    assert s0.log == [SENTINEL, LogEntry(7, 1, 1)];
    q := Campaign(v1);
    p := OnRequestVote(s0, VoteRequest(q)).peer;
    ws := DoSubmit(ws, 3, [l0, v1, f2], 0, 7);
    ws := DoTimeout(ws, 3, [s0, v1, f2], 1);
    assert CallKey(2, 1, 0) in Last(ws).calls;
    ws := DoVote(ws, 3, [s0, q, f2], CallKey(2, 1, 0), VoteRequest(q));
  }

  /** It leads again in term 3, by peer 2's vote. */
  lemma LeadsAgain() returns (ws: seq<World>, p: Peer, q: Peer, r: Peer)
    ensures At(ws, 3, [p, q, r]) && p.role.Leader? && p.currentTerm == 3 && p.me == 0 && p.numPeers == 3
    ensures p.log == [SENTINEL, LogEntry(7, 1, 1)] && p.commitIndex == 0
    ensures |p.nextIndex| == |p.matchIndex| == 3 && p.nextIndex[2] == 2
    ensures r == Fresh(2, 3).(votedFor := 0, currentTerm := 3)
  {
    var p2, f2 := Fresh(0, 3), Fresh(2, 3);
    ws, p2, q := LoneEntry();
    var d0 := Campaign(p2);
    var vote := OnRequestVote(f2, VoteRequest(d0));
    p, r := OnVoteReply(d0, 3, vote.reply), vote.peer;
    assert vote.reply == RequestVoteReply(3, true) && p.role.Leader?;
    ws := DoTimeout(ws, 3, [p2, q, f2], 0);
    assert CallKey(3, 0, 2) in Last(ws).calls;
    ws := DoVote(ws, 3, [d0, q, f2], CallKey(3, 0, 2), VoteRequest(d0));
    ws := DoCount(ws, 3, [d0, q, r], CallKey(3, 0, 2), vote.reply);
  }

  /** It sends peer 2 two heartbeats, which peer 2 refuses. The requests are equal, and so are the replies: each is
      one element of the messages in the network. */
  lemma RefusedTwice() returns (ws: seq<World>, p: Peer, q: Peer, r: Peer, a: Ack)
    ensures At(ws, 3, [p, q, r]) && p.role.Leader? && p.currentTerm == 3 && |p.log| == 2
    ensures |p.nextIndex| == |p.matchIndex| == 3 && p.nextIndex[2] == 2
    ensures a in Last(ws).acks && a == Ack(3, 0, AppendEntriesReply(2, 3, 0, true, false))
  {
    ws, p, q, r := LeadsAgain();
    var beat := Append(2, Replication(p, p.nextIndex[2]));
    assert beat.args == AppendEntriesArgs(3, 0, 1, 1, [], 0);
    a := Ack(3, 0, AppendEntriesReply(2, 3, 0, true, false));
    assert OnAppendEntries(r, beat.args) == AppendOutcome(r, a.reply, []);
    ws := DoReplicate(ws, 3, [p, q, r], 0);
    ws := DoReplicate(ws, 3, [p, q, r], 0);
    ws := DoAppend(ws, 3, [p, q, r], beat);
    ws := DoAppend(ws, 3, [p, q, r], beat);
  }

  /** A leader's next index can leave the log: a leader whose next index for peer 2 is 2 handles two failed replies
      of its own term, and the next `replicate` reads the log at -1. */
  lemma NextIndexBelowOne() returns (ws: seq<World>)
    ensures Run(ws, 3) && Shape(Last(ws)) && |Last(ws).peers| == 3 && |Last(ws).peers[0].nextIndex| == 3
    ensures var p := Last(ws).peers[0]; p.role.Leader? && p.nextIndex[2] == 0 && PrevIndex(p, p.nextIndex[2]) == -1
  {
    var p, q, r, a;
    ws, p, q, r, a := RefusedTwice();
    var p1 := OnAppendReply(p, 3, a.reply).peer;
    assert p1 == p.(nextIndex := p.nextIndex[2 := 1]);
    ws := DoAck(ws, 3, [p, q, r], a);
    ws := DoAck(ws, 3, [p1, q, r], a);
  }

  /** A request from the start of the log always succeeds, unless its term is over. */
  lemma FirstRequestSucceeds(ws: seq<World>, n: nat, i: nat, m: Append)
    requires Run(ws, n) && i < |ws| && m in ws[i].appends && m.args.prevLogIndex == 0
    requires m.to < |ws[i].peers| && m.args.term >= ws[i].peers[m.to].currentTerm
    requires |ws[i].peers[m.to].log| > 0 && WellFormed(m.args)
    ensures OnAppendEntries(ws[i].peers[m.to], m.args).reply.success
  {
    RunInv(ws, n, i);
    var w := ws[i];
    assert AppendOk(w, m) && PeerLogOk(w, m.to) && LeaderLogOk(w, m.args.term);
  }

  /** The request a failed reply answers. */
  ghost predicate Refused(w: World, a: Ack, m: Append) {
    && m in w.appends && m.to == a.reply.followerId && m.args.leaderId == a.leader && m.args.term == a.sentTerm
    && (a.reply.term > a.sentTerm || m.args.prevLogIndex >= 1)
  }

  lemma NewRefusal(w: World, m: Append)
    requires Inv(w) && Enabled(w, DeliverAppend(m)) && !OnAppendEntries(w.peers[m.to], m.args).reply.success
    ensures Refused(w, Ack(m.args.term, m.args.leaderId, OnAppendEntries(w.peers[m.to], m.args).reply), m)
  {
    assert AppendOk(w, m) && PeerLogOk(w, m.to) && LeaderLogOk(w, m.args.term);
  }

  lemma NextRefused(w: World, v: World, a: Ack) returns (m: Append)
    requires Inv(w) && Next(w, v) && a in v.acks && a !in w.acks && !a.reply.success
    ensures Refused(v, a, m)
  {
    m := NewAck(w, v, a);
    NewRefusal(w, m);
  }

  lemma NewAck(w: World, v: World, a: Ack) returns (m: Append)
    requires Next(w, v) && a in v.acks && a !in w.acks
    ensures Enabled(w, DeliverAppend(m)) && v == AfterAppend(w, m)
    ensures a == Ack(m.args.term, m.args.leaderId, OnAppendEntries(w.peers[m.to], m.args).reply)
  {
    var step :| Enabled(w, step) && v == After(w, step);
    m := step.append;
  }

  lemma NextKeepsAppends(w: World, v: World)
    requires Next(w, v)
    ensures w.appends <= v.appends
  {
    var step :| Enabled(w, step) && v == After(w, step);
  }

  /** Every failed reply of a run is from a later term, which ends the leader's, or answers a request with a previous
      index of 1 or more, which was sent before the next index was down to 1. */
  lemma {:induction false} FailedReply(ws: seq<World>, n: nat, j: nat, a: Ack) returns (m: Append)
    requires Run(ws, n) && j < |ws| && a in ws[j].acks && !a.reply.success
    ensures Refused(ws[j], a, m)
  {
    assert j > 0;
    NextOf(ws, n, j - 1);
    if a in ws[j - 1].acks {
      m := FailedReply(ws, n, j - 1, a);
      NextKeepsAppends(ws[j - 1], ws[j]);
    } else {
      m := NextRefused(ws[j - 1], ws[j], a);
    }
  }

  // ---------- An acknowledgement from another term ----------

  /** As written, the reply changes nothing. */
  predicate Inert(p: Peer, reply: AppendEntriesReply)
    requires reply.followerId < |p.nextIndex| && reply.followerId < |p.matchIndex|
  {
    var f, last := reply.followerId, reply.lastLogIndex;
    && reply.term <= p.currentTerm && reply.success && !ReadsPastEnd(p, reply)
    && (reply.isHeartbeat
        || (&& p.matchIndex[f] >= last && p.nextIndex[f] == last + 1
            && (last <= p.commitIndex || (!CanCommit(p, last) && p.lastApplied >= p.commitIndex))))
  }

  /** In every run, the source handles a reply in bounds and as the protocol does exactly if the peer is still the
      leader of the term that sent the request, or the reply changes nothing. */
  lemma ReplyAgreesIff(ws: seq<World>, n: nat, i: nat, a: Ack)
    requires Run(ws, n) && i < |ws| && a in ws[i].acks
    ensures a.leader < |ws[i].peers| && a.reply.followerId < |ws[i].peers[a.leader].nextIndex|
      && a.reply.followerId < |ws[i].peers[a.leader].matchIndex|
    ensures var p := ws[i].peers[a.leader];
      !ReadsPastEnd(p, a.reply) && TakeReply(p, a.reply) == OnAppendReply(p, a.sentTerm, a.reply)
      <==> AppendReplyActs(p, a.sentTerm) || Inert(p, a.reply)
  {
    RunInv(ws, n, i);
    var p := ws[i].peers[a.leader];
    if AppendReplyActs(p, a.sentTerm) {
      RepliesAreHandled(ws, n, i, a, a.reply.followerId);
    } else {
      InertIff(p, a.reply);
    }
  }

  lemma InertIff(p: Peer, reply: AppendEntriesReply)
    requires reply.followerId < |p.nextIndex| && reply.followerId < |p.matchIndex|
    ensures !ReadsPastEnd(p, reply) && TakeReply(p, reply) == CommitOutcome(p, []) <==> Inert(p, reply)
  {
    var f, last := reply.followerId, reply.lastLogIndex;
    if reply.term <= p.currentTerm && !reply.success {
      assert TakeReply(p, reply).peer.nextIndex[f] == p.nextIndex[f] - 1;
    } else if reply.term <= p.currentTerm && !reply.isHeartbeat {
      var q := TakeReply(p, reply).peer;
      assert q.nextIndex[f] == last + 1;
      assert q.matchIndex[f] == if p.matchIndex[f] < last then last else p.matchIndex[f];
      if p.matchIndex[f] >= last && p.nextIndex[f] == last + 1 { assert Acknowledge(p, f, last) == p; }
    }
  }
}
