/** What a late acknowledgement can do. */
module RaftLateReply {
  import opened Runs
  import opened RaftTypes
  import opened RaftLog
  import opened RaftHandlers
  import opened RaftWorld
  import opened RaftTheorems
  import opened RaftRuns

  // Five peers. In term 1 peer 0 leads, and peer 1 acknowledges two entries; the reply is late. In term 2 peer 2
  // leads, and peer 0 loses both entries. In term 4 peer 0 leads again, and only peer 3 has its new entry. In term 7
  // peer 2 leads again, and commits another entry at the same index. Then peer 0 takes the reply of term 1.

  const E1 := LogEntry(7, 1, 1)
  const E2 := LogEntry(8, 1, 2)
  const X1 := LogEntry(9, 2, 1)
  const LONE := LogEntry(10, 4, 2)
  const OTHER := LogEntry(11, 7, 2)

  const LATE := Ack(1, 0, AppendEntriesReply(1, 1, 2, false, true))

  // ---------- Rounds of five peers ----------

  /** A peer that has committed nothing. */
  ghost predicate Is(p: Peer, me: nat, role: Role, term: nat, vote: int, log: seq<LogEntry>) {
    && p.me == me && p.numPeers == 5 && p.role == role && p.currentTerm == term && p.votedFor == vote && p.log == log
    && p.commitIndex == p.lastApplied == 0 && |p.nextIndex| == |p.matchIndex| == 5
  }

  /** Candidate `c` asks peer `v`. */
  lemma Ask(ws: seq<World>, peers: seq<Peer>, c: nat, v: nat) returns (more: seq<World>)
    requires At(ws, 5, peers) && c < 5 && v < 5 && c != v && !peers[c].role.Leader?
    ensures At(more, 5, peers[c := Campaign(peers[c])][v := Asked(peers, c, v).peer])
    ensures SameAppends(Last(ws), Last(more))
  {
    var p := Campaign(peers[c]);
    more := DoTimeout(ws, 5, peers, c);
    assert CallKey(p.currentTerm, c, v) in Last(more).calls;
    more := DoVote(more, 5, peers[c := p], CallKey(p.currentTerm, c, v), VoteRequest(p));
  }

  /** What peer `v` makes of the request. */
  ghost function Asked(peers: seq<Peer>, c: nat, v: nat): VoteOutcome
    requires c < |peers| && v < |peers|
  {
    OnRequestVote(peers[v], VoteRequest(Campaign(peers[c])))
  }

  /** Both have granted the votes candidate `c` has asked for. */
  ghost predicate Agreed(ws: seq<World>, c: nat, term: nat, a: nat, b: nat)
    requires |ws| > 0
  {
    forall v :: v == a || v == b ==>
      CallKey(term, c, v) in Last(ws).calls
      && Last(ws).calls[CallKey(term, c, v)] == Answered(RequestVoteReply(term, true))
  }

  lemma Agree(ws: seq<World>, peers: seq<Peer>, c: nat, a: nat, b: nat) returns (more: seq<World>)
    requires At(ws, 5, peers) && c < 5 && a < 5 && b < 5 && a != b && a != c && b != c && !peers[c].role.Leader?
    requires Asked(peers, c, a).reply.voteGranted && Asked(peers, c, b).reply.voteGranted
    ensures At(more, 5, peers[c := Campaign(peers[c])][a := Asked(peers, c, a).peer][b := Asked(peers, c, b).peer])
    ensures Agreed(more, c, peers[c].currentTerm + 1, a, b) && SameAppends(Last(ws), Last(more))
  {
    var p := Campaign(peers[c]);
    var ka, kb := CallKey(p.currentTerm, c, a), CallKey(p.currentTerm, c, b);
    more := DoTimeout(ws, 5, peers, c);
    assert ka in Last(more).calls && kb in Last(more).calls;
    more := DoVote(more, 5, peers[c := p], ka, VoteRequest(p));
    more := DoVote(more, 5, peers[c := p][a := Asked(peers, c, a).peer], kb, VoteRequest(p));
  }

  /** The candidate counts them, and leads. */
  lemma CountBoth(ws: seq<World>, peers: seq<Peer>, c: nat, a: nat, b: nat) returns (more: seq<World>)
    requires At(ws, 5, peers) && c < 5 && a < 5 && b < 5 && a != b && peers[c].role.Candidate?
    requires peers[c].votesGot == 1 && Agreed(ws, c, peers[c].currentTerm, a, b)
    ensures At(more, 5, peers[c := Lead(peers[c].(votesGot := 3))]) && SameAppends(Last(ws), Last(more))
  {
    var p := peers[c];
    var yes := RequestVoteReply(p.currentTerm, true);
    more := DoCount(ws, 5, peers, CallKey(p.currentTerm, c, a), yes);
    more := DoCount(more, 5, peers[c := p.(votesGot := 2)], CallKey(p.currentTerm, c, b), yes);
  }

  /** Candidate `c` is elected by peers `a` and `b`. */
  lemma Elect(ws: seq<World>, peers: seq<Peer>, c: nat, a: nat, b: nat) returns (more: seq<World>)
    requires At(ws, 5, peers) && c < 5 && a < 5 && b < 5 && a != b && a != c && b != c && !peers[c].role.Leader?
    requires Asked(peers, c, a).reply.voteGranted && Asked(peers, c, b).reply.voteGranted
    ensures var l := Lead(Campaign(peers[c]).(votesGot := 3));
      At(more, 5, peers[c := l][a := Asked(peers, c, a).peer][b := Asked(peers, c, b).peer])
    ensures SameAppends(Last(ws), Last(more))
  {
    var p := Campaign(peers[c]);
    var now := peers[c := p][a := Asked(peers, c, a).peer][b := Asked(peers, c, b).peer];
    more := Agree(ws, peers, c, a, b);
    more := CountBoth(more, now, c, a, b);
    var l := Lead(p.(votesGot := 3));
    assert now[c := l] == peers[c := l][a := Asked(peers, c, a).peer][b := Asked(peers, c, b).peer];
  }

  /** The request of leader `i` reaches follower `f`. */
  lemma Send(ws: seq<World>, peers: seq<Peer>, i: nat, f: nat, args: AppendEntriesArgs) returns (more: seq<World>)
    requires At(ws, 5, peers) && i < 5 && f < 5 && i != f && peers[i].role.Leader? && |peers[i].nextIndex| == 5
    requires peers[i].nextIndex[f] >= 1 && args == Replication(peers[i], peers[i].nextIndex[f]) && WellFormed(args)
    requires |peers[f].log| > 0
    ensures var out := OnAppendEntries(peers[f], args);
      && At(more, 5, peers[f := out.peer])
      && Last(more).acks == Last(ws).acks + {Ack(args.term, args.leaderId, out.reply)}
  {
    more := DoReplicate(ws, 5, peers, i);
    more := DoAppend(more, 5, peers, Append(f, args));
  }

  // ---------- Term 1 ----------

  /** Peer 0 is elected by peers 1 and 2. */
  lemma FirstLeader() returns (ws: seq<World>, l: Peer, v: Peer, r: Peer)
    ensures At(ws, 5, [l, v, r, Fresh(3, 5), Fresh(4, 5)])
    ensures Is(l, 0, Leader, 1, 0, [SENTINEL]) && l.nextIndex == [0, 1, 1, 1, 1]
    ensures Is(v, 1, Follower, 1, 0, [SENTINEL]) && Is(r, 2, Follower, 1, 0, [SENTINEL])
  {
    var f := seq(5, i requires 0 <= i => Fresh(i, 5));
    ws := Start(5);
    ws := Elect(ws, f, 0, 1, 2);
    l, v, r := Lead(Campaign(f[0]).(votesGot := 3)), Asked(f, 0, 1).peer, Asked(f, 0, 2).peer;
    assert f[0 := l][1 := v][2 := r] == [l, v, r, f[3], f[4]];
  }

  lemma FirstTerm() returns (ws: seq<World>, p: Peer, q: Peer, r: Peer)
    ensures At(ws, 5, [p, q, r, Fresh(3, 5), Fresh(4, 5)]) && LATE in Last(ws).acks
    ensures Is(p, 0, Leader, 1, 0, [SENTINEL, E1, E2])
    ensures Is(q, 1, Follower, 1, 0, [SENTINEL, E1, E2]) && Is(r, 2, Follower, 1, 0, [SENTINEL])
  {
    var l, v;
    ws, l, v, r := FirstLeader();
    var f3, f4 := Fresh(3, 5), Fresh(4, 5);
    var l1 := OnStart(l, 7);
    p := OnStart(l1, 8);
    assert p.log == [SENTINEL, E1, E2] && p.log[1..] == [E1, E2];
    ws := DoSubmit(ws, 5, [l, v, r, f3, f4], 0, 7);
    ws := DoSubmit(ws, 5, [l1, v, r, f3, f4], 0, 8);
    var args := AppendEntriesArgs(1, 0, 0, 0, [E1, E2], 0);
    q := OnAppendEntries(v, args).peer;
    ws := Send(ws, [p, v, r, f3, f4], 0, 1, args);
  }

  // ---------- Term 2 ----------

  /** Peer 2 leads, with an entry of its own. */
  lemma SecondTerm() returns (ws: seq<World>, p: Peer, q: Peer, l: Peer, u: Peer, v: Peer)
    ensures At(ws, 5, [p, q, l, u, v]) && LATE in Last(ws).acks
    ensures Is(p, 0, Leader, 1, 0, [SENTINEL, E1, E2]) && Is(q, 1, Follower, 1, 0, [SENTINEL, E1, E2])
    ensures Is(l, 2, Leader, 2, 2, [SENTINEL, X1]) && l.nextIndex == [1, 1, 0, 1, 1]
    ensures Is(u, 3, Follower, 2, 2, [SENTINEL]) && Is(v, 4, Follower, 2, 2, [SENTINEL])
  {
    var r;
    ws, p, q, r := FirstTerm();
    var peers := [p, q, r, Fresh(3, 5), Fresh(4, 5)];
    ws := Elect(ws, peers, 2, 3, 4);
    var l0 := Lead(Campaign(r).(votesGot := 3));
    u, v := Asked(peers, 2, 3).peer, Asked(peers, 2, 4).peer;
    l := OnStart(l0, 9);
    ws := DoSubmit(ws, 5, [p, q, l0, u, v], 2, 9);
  }

  /** It overwrites the log of peer 0. */
  lemma Overwritten() returns (ws: seq<World>, p: Peer, q: Peer, l: Peer, u: Peer, v: Peer)
    ensures At(ws, 5, [p, q, l, u, v]) && LATE in Last(ws).acks
    ensures Is(p, 0, Follower, 2, -1, [SENTINEL, X1]) && Is(q, 1, Follower, 1, 0, [SENTINEL, E1, E2])
    ensures Is(l, 2, Leader, 2, 2, [SENTINEL, X1]) && l.nextIndex == [1, 1, 0, 1, 1]
    ensures Is(u, 3, Follower, 2, 2, [SENTINEL]) && Is(v, 4, Follower, 2, 2, [SENTINEL])
  {
    var p1;
    ws, p1, q, l, u, v := SecondTerm();
    var args := AppendEntriesArgs(2, 2, 0, 0, [X1], 0);
    assert l.log[1..] == [X1];
    p := OnAppendEntries(p1, args).peer;
    ws := Send(ws, [p1, q, l, u, v], 2, 0, args);
  }

  /** The late reply can make `commitAt` read past the end of the log: peer 0 is now a follower in term 2 with one
      entry left, and gets the acknowledgement of two entries from its own term 1. */
  lemma LateReplyOutOfRange() returns (ws: seq<World>, a: Ack)
    ensures Run(ws, 5) && Shape(Last(ws)) && |Last(ws).peers| == 5 && a in Last(ws).acks && a.leader == 0
    ensures ReadsPastEnd(Last(ws).peers[0], a.reply)
  {
    var p, q, l, u, v;
    ws, p, q, l, u, v := Overwritten();
    a := LATE;
  }

  /** Peers 3 and 4 get the entry too. */
  lemma Shared() returns (ws: seq<World>, p: Peer, q: Peer, l: Peer, u: Peer, v: Peer)
    ensures At(ws, 5, [p, q, l, u, v]) && LATE in Last(ws).acks
    ensures Is(p, 0, Follower, 2, -1, [SENTINEL, X1]) && Is(q, 1, Follower, 1, 0, [SENTINEL, E1, E2])
    ensures Is(l, 2, Leader, 2, 2, [SENTINEL, X1])
    ensures Is(u, 3, Follower, 2, 2, [SENTINEL, X1]) && Is(v, 4, Follower, 2, 2, [SENTINEL, X1])
  {
    var u0, v0;
    ws, p, q, l, u0, v0 := Overwritten();
    var args := AppendEntriesArgs(2, 2, 0, 0, [X1], 0);
    assert l.log[1..] == [X1];
    u, v := OnAppendEntries(u0, args).peer, OnAppendEntries(v0, args).peer;
    ws := Send(ws, [p, q, l, u0, v0], 2, 3, args);
    ws := Send(ws, [p, q, l, u, v0], 2, 4, args);
  }

  // ---------- Term 4 ----------

  /** Peer 2 gives way to the request of term 3, and votes in term 4. */
  lemma FourthTerm() returns (ws: seq<World>, l: Peer, q: Peer, r: Peer, u: Peer, v: Peer)
    ensures At(ws, 5, [l, q, r, u, v]) && LATE in Last(ws).acks
    ensures Is(l, 0, Leader, 4, 0, [SENTINEL, X1, LONE]) && l.nextIndex == [0, 2, 2, 2, 2]
    ensures l.matchIndex == [0, 0, 0, 0, 0]
    ensures Is(q, 1, Follower, 4, 0, [SENTINEL, E1, E2]) && Is(r, 2, Follower, 4, 0, [SENTINEL, X1])
    ensures Is(u, 3, Follower, 2, 2, [SENTINEL, X1]) && Is(v, 4, Follower, 2, 2, [SENTINEL, X1])
  {
    var p0, q0, r0;
    ws, p0, q0, r0, u, v := Shared();
    ws := Ask(ws, [p0, q0, r0, u, v], 0, 2);
    var p1, r1 := Campaign(p0), Asked([p0, q0, r0, u, v], 0, 2).peer;
    assert Is(p1, 0, Candidate, 3, 0, [SENTINEL, X1]) && Is(r1, 2, Follower, 3, -1, [SENTINEL, X1]);
    var peers := [p1, q0, r1, u, v];
    ws := Elect(ws, peers, 0, 1, 2);
    var l0 := Lead(Campaign(p1).(votesGot := 3));
    q, r := Asked(peers, 0, 1).peer, Asked(peers, 0, 2).peer;
    l := OnStart(l0, 10);
    ws := DoSubmit(ws, 5, [l0, q, r, u, v], 0, 10);
  }

  /** Peer 3 acknowledges the new entry, which is not enough to commit it. */
  lemma OneHasIt() returns (ws: seq<World>, l: Peer, q: Peer, r: Peer, u: Peer, v: Peer)
    ensures At(ws, 5, [l, q, r, u, v]) && LATE in Last(ws).acks
    ensures Is(l, 0, Leader, 4, 0, [SENTINEL, X1, LONE]) && l.matchIndex == [0, 0, 0, 2, 0]
    ensures Is(q, 1, Follower, 4, 0, [SENTINEL, E1, E2]) && Is(r, 2, Follower, 4, 0, [SENTINEL, X1])
    ensures Is(u, 3, Follower, 4, 2, [SENTINEL, X1, LONE]) && Is(v, 4, Follower, 2, 2, [SENTINEL, X1])
  {
    var l0, u0;
    ws, l0, q, r, u0, v := FourthTerm();
    var args := AppendEntriesArgs(4, 0, 1, 2, [LONE], 0);
    assert l0.log[2..] == [LONE];
    u := OnAppendEntries(u0, args).peer;
    ws := Send(ws, [l0, q, r, u0, v], 0, 3, args);
    var reply := AppendEntriesReply(3, 4, 2, false, true);
    l := OnAppendReply(l0, 4, reply).peer;
    assert Replicas(Acknowledge(l0, 3, 2), 2) == {0, 3};
    ws := DoAck(ws, 5, [l0, q, r, u, v], Ack(4, 0, reply));
  }

  // ---------- Term 7 ----------

  /** Peer 1 times out, gives way to the request of term 6, and votes in term 7. */
  lemma SeventhTerm() returns (ws: seq<World>, p: Peer, q: Peer, l: Peer, u: Peer, v: Peer)
    ensures At(ws, 5, [p, q, l, u, v]) && LATE in Last(ws).acks
    ensures Is(p, 0, Leader, 4, 0, [SENTINEL, X1, LONE]) && p.matchIndex == [0, 0, 0, 2, 0]
    ensures Is(q, 1, Follower, 7, 2, [SENTINEL, E1, E2])
    ensures Is(l, 2, Leader, 7, 2, [SENTINEL, X1, OTHER]) && l.nextIndex == [2, 2, 0, 2, 2]
    ensures l.matchIndex == [0, 0, 0, 0, 0]
    ensures Is(u, 3, Follower, 4, 2, [SENTINEL, X1, LONE]) && Is(v, 4, Follower, 7, 2, [SENTINEL, X1])
  {
    var q0, r0, v0;
    ws, p, q0, r0, u, v0 := OneHasIt();
    ws := DoTimeout(ws, 5, [p, q0, r0, u, v0], 1);
    var q1, r1 := Campaign(q0), Campaign(r0);
    ws := DoTimeout(ws, 5, [p, q1, r0, u, v0], 2);
    ws := Ask(ws, [p, q1, r1, u, v0], 2, 1);
    var q2, r2 := Asked([p, q1, r1, u, v0], 2, 1).peer, Campaign(r1);
    assert Is(q2, 1, Follower, 6, -1, [SENTINEL, E1, E2]) && Is(r2, 2, Candidate, 6, 2, [SENTINEL, X1]);
    var peers := [p, q2, r2, u, v0];
    ws := Elect(ws, peers, 2, 1, 4);
    var l0 := Lead(Campaign(r2).(votesGot := 3));
    q, v := Asked(peers, 2, 1).peer, Asked(peers, 2, 4).peer;
    l := OnStart(l0, 11);
    ws := DoSubmit(ws, 5, [p, q, l0, u, v], 2, 11);
  }

  /** Peers 3 and 4 acknowledge its entry. */
  lemma TwoHaveIt() returns (ws: seq<World>, p: Peer, q: Peer, l: Peer, u: Peer, v: Peer, a: Ack, b: Ack)
    ensures At(ws, 5, [p, q, l, u, v]) && LATE in Last(ws).acks && a in Last(ws).acks && b in Last(ws).acks
    ensures a == Ack(7, 2, AppendEntriesReply(3, 7, 2, false, true))
    ensures b == Ack(7, 2, AppendEntriesReply(4, 7, 2, false, true))
    ensures Is(p, 0, Leader, 4, 0, [SENTINEL, X1, LONE]) && p.matchIndex == [0, 0, 0, 2, 0]
    ensures q.log == [SENTINEL, E1, E2] && u.log == v.log == [SENTINEL, X1, OTHER]
    ensures Is(l, 2, Leader, 7, 2, [SENTINEL, X1, OTHER]) && l.matchIndex == [0, 0, 0, 0, 0]
  {
    var u0, v0;
    ws, p, q, l, u0, v0 := SeventhTerm();
    var args := AppendEntriesArgs(7, 2, 1, 2, [OTHER], 0);
    assert l.log[2..] == [OTHER];
    u, v := OnAppendEntries(u0, args).peer, OnAppendEntries(v0, args).peer;
    a := Ack(7, 2, AppendEntriesReply(3, 7, 2, false, true));
    b := Ack(7, 2, AppendEntriesReply(4, 7, 2, false, true));
    ws := Send(ws, [p, q, l, u0, v0], 2, 3, args);
    ws := Send(ws, [p, q, l, u, v0], 2, 4, args);
  }

  /** Peer 2 commits its entry, and delivers it. */
  lemma OtherCommitted() returns (ws: seq<World>, p: Peer, q: Peer, l: Peer, u: Peer, v: Peer)
    ensures At(ws, 5, [p, q, l, u, v]) && LATE in Last(ws).acks
    ensures Is(p, 0, Leader, 4, 0, [SENTINEL, X1, LONE]) && p.matchIndex == [0, 0, 0, 2, 0]
    ensures q.log == [SENTINEL, E1, E2] && l.log == u.log == v.log == [SENTINEL, X1, OTHER]
    ensures |Last(ws).applied| == 5 && ApplyMsg(true, 11, 2) in Last(ws).applied[2]
  {
    var l0, a, b;
    ws, p, q, l0, u, v, a, b := TwoHaveIt();
    var l1 := OnAppendReply(l0, 7, a.reply).peer;
    assert Replicas(Acknowledge(l0, 3, 2), 2) == {2, 3};
    assert Is(l1, 2, Leader, 7, 2, [SENTINEL, X1, OTHER]) && l1.matchIndex == [0, 0, 0, 2, 0];
    ws := DoAck(ws, 5, [p, q, l0, u, v], a);
    var out := OnAppendReply(l1, 7, b.reply);
    l := out.peer;
    assert Replicas(Acknowledge(l1, 4, 2), 2) == {2, 3, 4};
    TwoDelivered(l.log);
    assert out.sent[1] == ApplyMsg(true, 11, 2);
    ws := DoAck(ws, 5, [p, q, l1, u, v], b);
  }

  lemma TwoDelivered(log: seq<LogEntry>)
    requires |log| == 3
    ensures Deliveries(log, 0, 2) ==
      [ApplyMsg(true, log[1].command, log[1].index), ApplyMsg(true, log[2].command, log[2].index)]
  {
    assert Deliveries(log, 1, 2) == [ApplyMsg(true, log[2].command, log[2].index)] + Deliveries(log, 2, 2);
  }

  // ---------- The reply of term 1 ----------

  /** The late reply can make a leader commit what no majority holds: peer 0, which leads term 4 and does not know
      of term 7, counts peer 1 for its own term 1. As written it commits an entry that nobody else has any more, and
      delivers it at an index for which peer 2 has delivered another command. */
  lemma LateReplyCommitsAlone() returns (ws: seq<World>, a: Ack)
    ensures Run(ws, 5) && Shape(Last(ws)) && |Last(ws).peers| == 5 && |Last(ws).applied| == 5
    ensures a in Last(ws).acks && a.leader == 0 && a.reply.followerId == 1
    ensures var p := Last(ws).peers[0]; var out := TakeReply(p, a.reply);
      && p.role.Leader? && p.currentTerm == 4 && a.sentTerm == 1 && !ReadsPastEnd(p, a.reply)
      && p.commitIndex == 0 && out.peer.commitIndex == 2 && |p.log| == 3
      && (forall i :: 0 < i < 5 ==> p.log[2] !in Last(ws).peers[i].log)
      && ApplyMsg(true, 10, 2) in out.sent && ApplyMsg(true, 11, 2) in Last(ws).applied[2]
  {
    var p, q, l, u, v;
    ws, p, q, l, u, v := OtherCommitted();
    a := LATE;
    var out := TakeReply(p, a.reply);
    assert Replicas(Acknowledge(p, 1, 2), 2) == {0, 1, 3};
    TwoDelivered(p.log);
    assert out.sent[1] == ApplyMsg(true, 10, 2);
  }
}
