/** Votes cast after acknowledgements: the order between them survives every step. */
module RaftVoting {
  import opened RaftTypes
  import opened RaftHandlers
  import opened RaftWorld
  import opened RaftInvariant
  import opened RaftCompleteness

  /** No vote is cast; acknowledgements are new only for the term their peer is in. */
  ghost predicate NoVote(w: World, v: World)
    requires Shape(w) && Shape(v)
  {
    && KeepsHeld(w, v) && v.grants == w.grants && v.candLogs == w.candLogs
    && (forall h :: h in v.held && h !in w.held ==> h.peer < |v.peers| && h.term == v.peers[h.peer].currentTerm)
  }

  lemma NoVoteKeepsVoting(w: World, v: World)
    requires Shape(w) && Shape(v) && Ballots(w) && Holding(w) && Voting(w) && Ballots(v) && Holding(v) && NoVote(w, v)
    ensures Voting(v)
  {
    forall g, h | g in v.grants && h in v.held ensures VoteAfterHeld(v, g, h) {
      if h in w.held {
        assert GrantOk(w, g) && HeldOk(w, h);
        VoteKept(w, v, g, h);
      } else {
        assert GrantOk(v, g);
      }
    }
  }

  /** At most the vote `g` is cast. */
  ghost predicate CastsOnly(w: World, v: World, g: Grant) {
    && KeepsHeld(w, v) && v.held == w.held && v.grants <= w.grants + {g}
    && (forall c :: c in w.candLogs ==> c in v.candLogs && v.candLogs[c] == w.candLogs[c])
  }

  lemma CastKeepsVoting(w: World, v: World, g: Grant)
    requires Shape(w) && Shape(v) && Ballots(w) && Holding(w) && Voting(w) && Ballots(v) && Holding(v)
      && CastsOnly(w, v, g)
    requires forall h :: h in v.held && h.peer == g.voter && g in v.grants && g !in w.grants ==> VoteAfterHeld(v, g, h)
    ensures Voting(v)
  {
    forall g', h | g' in v.grants && h in v.held ensures VoteAfterHeld(v, g', h) {
      if g' in w.grants {
        assert GrantOk(w, g') && HeldOk(w, h) && GrantOk(v, g') && HeldOk(v, h);
        VoteKept(w, v, g', h);
      }
    }
  }

  lemma TimeoutKeepsVoting(w: World, i: nat)
    requires Shape(w) && Ballots(w) && Campaigns(w) && LogsOk(w) && Holding(w) && Voting(w) && Enabled(w, Timeout(i))
    requires var v := AfterTimeout(w, i); Shape(v) && Ballots(v) && Holding(v)
    ensures Voting(AfterTimeout(w, i))
  {
    var v := AfterTimeout(w, i);
    var g := Grant(v.peers[i].currentTerm, i, i);
    assert Candidacy(g.term, i) !in w.candLogs;
    forall h | h in v.held && h.peer == i ensures VoteAfterHeld(v, g, h) {
      assert HeldOk(w, h) && HeldOk(v, h) && GrantOk(v, g);
      NewVote(w, v, g, h);
    }
    CastKeepsVoting(w, v, g);
  }

  lemma IndexedLog(logs: Logs, log: seq<LogEntry>, bound: nat)
    requires LogOk(logs, log, bound)
    ensures Indexed(log) && LastIndex(log) == |log| - 1
  {
    forall k | 0 <= k < |log| ensures log[k].index == k {
      if k > 0 { assert EntryOk(logs, log, k); }
    }
  }

  /** A granted vote, seen from the logs: the candidate's is at least as up to date as the voter's. */
  lemma GrantedVote(w: World, key: CallKey)
    requires Shape(w) && Campaigns(w) && LogsOk(w) && Enabled(w, DeliverVoteRequest(key))
    requires OnRequestVote(w.peers[key.voter], w.calls[key].args).reply.voteGranted
    ensures w.peers[key.voter].currentTerm <= key.term
    ensures Candidacy(key.term, key.cand) in w.candLogs
    ensures var cand := w.candLogs[Candidacy(key.term, key.cand)]; var log := w.peers[key.voter].log;
      LastTerm(cand) > LastTerm(log) || (LastTerm(cand) == LastTerm(log) && |cand| >= |log|)
  {
    assert CallOk(w, key);
    IndexedLog(w.logs, w.candLogs[Candidacy(key.term, key.cand)], key.term - 1);
  }

  /** A vote granted in a term that has its leader already does not count among that leader's. */
  lemma LateVote(w: World, v: World, key: CallKey, h: Held)
    requires Shape(w) && Shape(v) && Ballots(w) && Campaigns(w) && Winners(w) && LogsOk(w)
      && Enabled(w, DeliverVoteRequest(key))
    requires v == AfterVoteRequest(w, key) && OnRequestVote(w.peers[key.voter], w.calls[key].args).reply.voteGranted
    requires var g := Grant(key.term, key.voter, key.cand);
      g !in w.grants && GrantOk(v, g) && HeldOk(w, h) && HeldOk(v, h) && h.peer == key.voter
    ensures VoteAfterHeld(v, Grant(key.term, key.voter, key.cand), h)
  {
    GrantedVote(w, key);
    if key.term in w.elections {
      assert ElectionOk(w, key.term);
    } else {
      NewVote(w, v, Grant(key.term, key.voter, key.cand), h);
    }
  }

  lemma VoteRequestKeepsVoting(w: World, key: CallKey)
    requires Shape(w) && Ballots(w) && Campaigns(w) && Winners(w) && LogsOk(w) && Holding(w) && Voting(w)
    requires Enabled(w, DeliverVoteRequest(key))
    requires var v := AfterVoteRequest(w, key); Shape(v) && Ballots(v) && Holding(v)
    ensures Voting(AfterVoteRequest(w, key))
  {
    var v := AfterVoteRequest(w, key);
    var g := Grant(key.term, key.voter, key.cand);
    forall h | h in v.held && h.peer == key.voter && g in v.grants && g !in w.grants ensures VoteAfterHeld(v, g, h) {
      assert HeldOk(w, h) && HeldOk(v, h) && GrantOk(v, g);
      LateVote(w, v, key, h);
    }
    VoteRequestCasts(w, key);
    CastKeepsVoting(w, v, g);
  }

  lemma VoteRequestCasts(w: World, key: CallKey)
    requires Shape(w) && Enabled(w, DeliverVoteRequest(key))
    ensures CastsOnly(w, AfterVoteRequest(w, key), Grant(key.term, key.voter, key.cand))
  {}
}
