/** Elections: the invariants about votes survive every step. */
module RaftElections {
  import opened RaftTypes
  import opened RaftHandlers
  import opened RaftWorld
  import opened RaftInvariant

  // ---------- Steps in which nobody votes or is elected ----------

  /** A peer keeps its role, or becomes a follower; a follower keeps its vote. */
  ghost predicate Settles(p: Peer, q: Peer) {
    && p.currentTerm <= q.currentTerm
    && (!q.role.Follower? ==> q.role == p.role && q.currentTerm == p.currentTerm && q.votedFor == p.votedFor)
    && (p.role.Follower? ==> q.role.Follower? && q.votedFor == p.votedFor)
    && (p.role.Leader? && p.currentTerm == q.currentTerm ==> q.role.Leader?)
  }

  ghost predicate SameCount(p: Peer, q: Peer) {
    q.role.Candidate? ==> q.votesGot == p.votesGot && q.log == p.log
  }

  ghost predicate Settled(w: World, v: World) {
    && |v.peers| == |w.peers|
    && v.grants == w.grants && v.candLogs == w.candLogs && v.elections == w.elections && v.logs.Keys == w.logs.Keys
    && (forall i :: 0 <= i < |w.peers| ==> Settles(w.peers[i], v.peers[i]))
  }

  /** No vote is cast or counted and nobody is elected between `w` and `v`. */
  ghost predicate Calm(w: World, v: World) {
    && Settled(w, v) && v.counted == w.counted
    && (forall key :: key in v.calls ==> key in w.calls && v.calls[key] == w.calls[key])
    && (forall i :: 0 <= i < |w.peers| ==> SameCount(w.peers[i], v.peers[i]))
  }

  lemma AppendSettles(p: Peer, args: AppendEntriesArgs)
    requires |p.log| > 0 && WellFormed(args)
    ensures var q := OnAppendEntries(p, args).peer; Settles(p, q) && SameCount(p, q)
  {}

  lemma AckSettles(p: Peer, sentTerm: nat, reply: AppendEntriesReply)
    requires reply.followerId < |p.nextIndex| && reply.followerId < |p.matchIndex|
    ensures var q := OnAppendReply(p, sentTerm, reply).peer; Settles(p, q) && SameCount(p, q)
  {}

  lemma CalmSteps(w: World, step: Step)
    requires Shape(w) && Winners(w) && Enabled(w, step)
    requires !step.Timeout? && !step.DeliverVoteRequest? && !step.DeliverVoteReply?
    ensures Calm(w, After(w, step))
  {
    match step
    case LoseVoteCall(key) =>
    case Submit(i, command) =>
    case Replicate(i) =>
    case DeliverAppend(m) => AppendSettles(w.peers[m.to], m.args);
    case DeliverAck(a) => AckSettles(w.peers[a.leader], a.sentTerm, a.reply);
  }

  lemma CalmKeepsBallots(w: World, v: World)
    requires Shape(w) && Shape(v) && Calm(w, v) && Ballots(w)
    ensures Ballots(v)
  {
    forall g | g in v.grants ensures GrantOk(v, g) { assert GrantOk(w, g); }
  }

  lemma CalmKeepsCampaigns(w: World, v: World)
    requires Shape(w) && Shape(v) && Calm(w, v) && Campaigns(w)
    ensures Campaigns(v)
  {
    forall i | 0 <= i < |v.peers| && v.peers[i].role.Candidate? ensures CandidateOk(v, i) { assert CandidateOk(w, i); }
    forall key | key in v.calls ensures CallOk(v, key) {
      assert CallOk(w, key);
      assert Settles(w.peers[key.cand], v.peers[key.cand]);
    }
  }

  /** What a past election needs of a step. */
  ghost predicate Respects(w: World, v: World, term: nat)
    requires Shape(w) && Shape(v) && term in w.elections && ElectionOk(w, term)
  {
    var e := w.elections[term];
    && |v.peers| == |w.peers| && term in v.elections && v.elections[term] == e && w.grants <= v.grants
    && Candidacy(term, e.leader) in v.candLogs && v.candLogs[Candidacy(term, e.leader)] == e.base
    && w.peers[e.leader].currentTerm <= v.peers[e.leader].currentTerm
    && (v.peers[e.leader].currentTerm == term ==> v.peers[e.leader].role.Leader?)
    && (forall g :: g in v.grants && g !in w.grants && g.term == term && g.voter == e.leader ==> g.cand == e.leader)
  }

  lemma ElectionStays(w: World, v: World, term: nat)
    requires Shape(w) && Shape(v) && term in w.elections && ElectionOk(w, term)
    requires Respects(w, v, term)
    ensures ElectionOk(v, term)
  {}

  /** Nobody is elected, and every leader left was one before. */
  ghost predicate NoNewLeader(w: World, v: World) {
    && |v.peers| == |w.peers| && v.elections == w.elections && v.logs.Keys == w.logs.Keys
    && (forall i :: 0 <= i < |w.peers| && v.peers[i].role.Leader? ==>
      w.peers[i].role.Leader? && w.peers[i].currentTerm == v.peers[i].currentTerm)
  }

  lemma WinnersStay(w: World, v: World)
    requires Shape(w) && Shape(v) && Winners(w) && NoNewLeader(w, v)
    requires forall term :: term in w.elections ==> Respects(w, v, term)
    ensures Winners(v)
  {
    forall term | term in v.elections ensures ElectionOk(v, term) {
      ElectionStays(w, v, term);
    }
  }

  lemma SettledKeepsWinners(w: World, v: World)
    requires Shape(w) && Shape(v) && Settled(w, v) && Winners(w)
    ensures Winners(v)
  {
    forall term | term in w.elections ensures Respects(w, v, term) {
      assert ElectionOk(w, term);
      assert Settles(w.peers[w.elections[term].leader], v.peers[w.elections[term].leader]);
    }
    WinnersStay(w, v);
  }

  // ---------- Timeouts ----------

  lemma TimeoutKeepsBallots(w: World, i: nat)
    requires Shape(w) && Ballots(w) && Campaigns(w) && Enabled(w, Timeout(i)) && Shape(AfterTimeout(w, i))
    ensures Ballots(AfterTimeout(w, i))
  {
    var v := AfterTimeout(w, i);
    forall g | g in v.grants ensures GrantOk(v, g) {
      if g in w.grants { assert GrantOk(w, g); }
    }
  }

  lemma TimeoutKeepsCampaigns(w: World, i: nat)
    requires Shape(w) && Ballots(w) && Campaigns(w) && Enabled(w, Timeout(i)) && Shape(AfterTimeout(w, i))
    ensures Campaigns(AfterTimeout(w, i))
  {
    var v := AfterTimeout(w, i);
    var c := Candidacy(v.peers[i].currentTerm, i);
    assert c !in w.candLogs;
    forall j | 0 <= j < |v.peers| && v.peers[j].role.Candidate? ensures CandidateOk(v, j) {
      if j != i { assert CandidateOk(w, j); }
    }
    forall key | key in v.calls ensures CallOk(v, key) {
      if key !in CallsOf(c.term, i, |w.peers|) {
        assert CallOk(w, key);
      }
    }
  }

  lemma TimeoutRespects(w: World, i: nat, term: nat)
    requires Shape(w) && Ballots(w) && Campaigns(w) && term in w.elections && ElectionOk(w, term)
    requires Enabled(w, Timeout(i)) && Shape(AfterTimeout(w, i))
    ensures Respects(w, AfterTimeout(w, i), term)
  {
    assert Candidacy(w.peers[i].currentTerm + 1, i) !in w.candLogs;
  }

  lemma TimeoutKeepsWinners(w: World, i: nat)
    requires Shape(w) && Ballots(w) && Campaigns(w) && Winners(w) && Enabled(w, Timeout(i)) && Shape(AfterTimeout(w, i))
    ensures Winners(AfterTimeout(w, i))
  {
    var v := AfterTimeout(w, i);
    forall term | term in w.elections ensures Respects(w, v, term) {
      TimeoutRespects(w, i, term);
    }
    WinnersStay(w, v);
  }

  // ---------- Vote requests ----------

  lemma VoteRequestKeepsBallots(w: World, key: CallKey)
    requires Shape(w) && Ballots(w) && Campaigns(w)
    requires Enabled(w, DeliverVoteRequest(key)) && Shape(AfterVoteRequest(w, key))
    ensures Ballots(AfterVoteRequest(w, key))
  {
    var v := AfterVoteRequest(w, key);
    assert CallOk(w, key);
    var p, q := w.peers[key.voter], v.peers[key.voter];
    assert !q.role.Follower? ==> q.role == p.role && q.votedFor == p.votedFor;
    forall g | g in v.grants ensures GrantOk(v, g) {
      if g in w.grants { assert GrantOk(w, g); }
    }
    forall g, h | g in v.grants && h in v.grants && SameBallot(g, h) ensures g == h {
      if g in w.grants { assert GrantOk(w, g); }
      if h in w.grants { assert GrantOk(w, h); }
    }
  }

  lemma VoteRequestKeepsCampaigns(w: World, key: CallKey)
    requires Shape(w) && Ballots(w) && Campaigns(w)
    requires Enabled(w, DeliverVoteRequest(key)) && Shape(AfterVoteRequest(w, key))
    ensures Campaigns(AfterVoteRequest(w, key))
  {
    var v := AfterVoteRequest(w, key);
    assert CallOk(w, key);
    forall j | 0 <= j < |v.peers| && v.peers[j].role.Candidate? ensures CandidateOk(v, j) { assert CandidateOk(w, j); }
    forall k | k in v.calls ensures CallOk(v, k) { assert CallOk(w, k); }
  }

  /** The voter of a request may step down, but a leader that stays casts no vote for anybody else. */
  lemma VoteRequestRespects(w: World, key: CallKey, term: nat)
    requires Shape(w) && Ballots(w) && Campaigns(w) && term in w.elections && ElectionOk(w, term)
    requires Enabled(w, DeliverVoteRequest(key)) && Shape(AfterVoteRequest(w, key))
    ensures Respects(w, AfterVoteRequest(w, key), term)
  {
    assert CallOk(w, key);
  }

  lemma VoteRequestKeepsWinners(w: World, key: CallKey)
    requires Shape(w) && Ballots(w) && Campaigns(w) && Winners(w)
    requires Enabled(w, DeliverVoteRequest(key)) && Shape(AfterVoteRequest(w, key))
    ensures Winners(AfterVoteRequest(w, key))
  {
    var v := AfterVoteRequest(w, key);
    forall term | term in w.elections ensures Respects(w, v, term) {
      VoteRequestRespects(w, key, term);
    }
    WinnersStay(w, v);
  }

  // ---------- Vote replies ----------

  lemma VoteReplyKeepsBallots(w: World, key: CallKey)
    requires Shape(w) && Ballots(w) && Enabled(w, DeliverVoteReply(key)) && Shape(AfterVoteReply(w, key))
    ensures Ballots(AfterVoteReply(w, key))
  {
    var v := AfterVoteReply(w, key);
    forall g | g in v.grants ensures GrantOk(v, g) { assert GrantOk(w, g); }
  }

  lemma VoteReplyKeepsCampaigns(w: World, key: CallKey)
    requires Shape(w) && Campaigns(w) && Enabled(w, DeliverVoteReply(key)) && Shape(AfterVoteReply(w, key))
    ensures Campaigns(AfterVoteReply(w, key))
  {
    var v := AfterVoteReply(w, key);
    assert CallOk(w, key);
    forall j | 0 <= j < |v.peers| && v.peers[j].role.Candidate? ensures CandidateOk(v, j) { assert CandidateOk(w, j); }
    forall k | k in v.calls ensures CallOk(v, k) { assert CallOk(w, k); }
  }

  /** The number of peers below n in a set is at most n. */
  lemma {:induction false} AtMost(s: set<nat>, n: nat)
    requires forall v :: v in s ==> v < n
    ensures |s| <= n
  {
    if n == 0 {
      assert s == {};
    } else {
      AtMost(s - {n - 1}, n - 1);
      assert s <= (s - {n - 1}) + {n - 1};
    }
  }

  lemma Overlap(a: set<nat>, b: set<nat>, n: nat) returns (v: nat)
    requires Majority(a, n) && Majority(b, n)
    ensures v in a && v in b
  {
    if a * b == {} {
      AtMost(a + b, n);
      assert false;
    }
    v :| v in a * b;
  }

  /** A peer that voted in one term both for its elected leader and for a candidate voted for one peer. */
  lemma OneVote(w: World, term: nat, v: nat, cand: nat)
    requires Shape(w) && Ballots(w) && term in w.elections && ElectionOk(w, term)
    requires cand < |w.peers| && w.peers[cand].currentTerm == term && !w.peers[cand].role.Follower?
    requires Grant(term, v, cand) in w.grants && Grant(term, v, w.elections[term].leader) in w.grants
    ensures cand == w.elections[term].leader
  {
    var g, h := Grant(term, v, cand), Grant(term, v, w.elections[term].leader);
    assert GrantOk(w, g) && GrantOk(w, h);
    assert SameBallot(g, h) ==> g == h;
  }

  /** Two peers cannot both gather a majority in one term. */
  lemma SecondWinnerImpossible(w: World, i: nat, voters: set<nat>)
    requires Shape(w) && Ballots(w) && Campaigns(w) && Winners(w)
    requires i < |w.peers| && w.peers[i].role.Candidate? && Majority(voters, |w.peers|)
    requires forall v :: v in voters ==> Grant(w.peers[i].currentTerm, v, i) in w.grants
    ensures w.peers[i].currentTerm !in w.elections
  {
    var term := w.peers[i].currentTerm;
    if term in w.elections {
      assert ElectionOk(w, term);
      var v := Overlap(voters, w.elections[term].voters, |w.peers|);
      OneVote(w, term, v, i);
      assert false;
    }
  }

  lemma VoteReplyWinner(w: World, key: CallKey)
    requires Shape(w) && Ballots(w) && Campaigns(w) && Winners(w)
    requires Enabled(w, DeliverVoteReply(key)) && Shape(AfterVoteReply(w, key))
    requires Wins(w, key)
    ensures var v := AfterVoteReply(w, key); var term := w.peers[key.cand].currentTerm;
      && term !in w.elections && term in v.elections && ElectionOk(v, term)
  {
    var v := AfterVoteReply(w, key);
    var term := w.peers[key.cand].currentTerm;
    assert CallOk(w, key) && CandidateOk(w, key.cand);
    var voters := v.counted[key.cand];
    assert |voters| == v.peers[key.cand].votesGot;
    forall u | u in voters ensures Grant(term, u, key.cand) in w.grants && u < |w.peers| {
      assert GrantOk(w, Grant(term, u, key.cand));
    }
    SecondWinnerImpossible(w, key.cand, voters);
    forall g | g in w.grants && g.term == term && g.voter == key.cand ensures g.cand == key.cand {
      assert GrantOk(w, g);
    }
  }

  /** Candidate `c` became the leader of its term, elected by `voters`. */
  ghost predicate WonStep(w: World, v: World, c: nat, voters: set<nat>) {
    && c < |w.peers| && w.peers[c].role.Candidate? && w.peers[c].currentTerm !in w.elections
    && var p := w.peers[c];
       v == w.(peers := w.peers[c := Lead(p.(votesGot := p.votesGot + 1))], calls := v.calls, counted := v.counted,
               elections := w.elections[p.currentTerm := Election(c, voters, p.log)],
               logs := w.logs[p.currentTerm := p.log])
  }

  /** What that means for leaders and votes. */
  ghost predicate Won(w: World, v: World, c: nat, term: nat) {
    && c < |w.peers| == |v.peers| && w.peers[c].role.Candidate? && w.peers[c].currentTerm == term
    && v.peers[c].role.Leader? && v.peers[c].currentTerm == term
    && (forall i :: 0 <= i < |w.peers| && i != c ==> v.peers[i] == w.peers[i])
    && v.grants == w.grants && v.candLogs == w.candLogs
    && term !in w.elections && v.elections.Keys == w.elections.Keys + {term} && v.logs.Keys == w.logs.Keys + {term}
    && (forall t :: t in w.elections ==> v.elections[t] == w.elections[t])
    && v.elections[term].leader == c
  }

  lemma WonStepWins(w: World, v: World, c: nat, voters: set<nat>)
    requires WonStep(w, v, c, voters)
    ensures Won(w, v, c, w.peers[c].currentTerm)
  {}

  lemma WonKeepsWinners(w: World, v: World, c: nat, term: nat)
    requires Shape(w) && Shape(v) && Won(w, v, c, term) && Winners(w) && ElectionOk(v, term)
    ensures Winners(v)
  {
    forall t | t in w.elections ensures ElectionOk(v, t) {
      assert ElectionOk(w, t);
      assert Respects(w, v, t);
      ElectionStays(w, v, t);
    }
  }

  lemma OtherReply(w: World, key: CallKey)
    requires Shape(w) && Enabled(w, DeliverVoteReply(key)) && Shape(AfterVoteReply(w, key)) && !Wins(w, key)
    ensures Settled(w, AfterVoteReply(w, key))
  {}

  lemma WinsWon(w: World, key: CallKey)
    requires Shape(w) && Enabled(w, DeliverVoteReply(key)) && Wins(w, key)
      && w.peers[key.cand].currentTerm !in w.elections
    ensures WonStep(w, AfterVoteReply(w, key), key.cand, w.counted[key.cand] + {key.voter})
  {}

  lemma VoteReplyKeepsWinners(w: World, key: CallKey)
    requires Shape(w) && Ballots(w) && Campaigns(w) && Winners(w)
    requires Enabled(w, DeliverVoteReply(key)) && Shape(AfterVoteReply(w, key))
    ensures Winners(AfterVoteReply(w, key))
  {
    var v := AfterVoteReply(w, key);
    if Wins(w, key) {
      VoteReplyWinner(w, key);
      WinsWon(w, key);
      WonStepWins(w, v, key.cand, w.counted[key.cand] + {key.voter});
      WonKeepsWinners(w, v, key.cand, w.peers[key.cand].currentTerm);
    } else {
      OtherReply(w, key);
      SettledKeepsWinners(w, v);
    }
  }
}
