/** The inductive invariant of the cluster, one predicate per concern. */
module RaftInvariant {
  import opened RaftTypes
  import opened RaftWorld

  type Logs = map<nat, seq<LogEntry>>

  // ---------- Votes ----------

  ghost predicate GrantOk(w: World, g: Grant)
    requires Shape(w)
  {
    && g.voter < |w.peers| && g.cand < |w.peers|
    && 1 <= g.term <= w.peers[g.voter].currentTerm
    && Candidacy(g.term, g.cand) in w.candLogs
    && (g.voter != g.cand && g.term == w.peers[g.voter].currentTerm ==>
      w.peers[g.voter].role.Follower? && w.peers[g.voter].votedFor == g.cand)
  }

  predicate SameBallot(g: Grant, h: Grant) {
    g.term == h.term && g.voter == h.voter && g.voter != g.cand && h.voter != h.cand
  }

  /** A vote for somebody else is cast at most once a term, although `votedFor` is cleared inside a
      term by a candidate that steps down and survives the term bump of a follower. */
  ghost predicate Ballots(w: World)
    requires Shape(w)
  {
    && (forall i :: 0 <= i < |w.peers| && !w.peers[i].role.Follower? ==> w.peers[i].votedFor == i)
    && (forall g {:trigger GrantOk(w, g)} :: g in w.grants ==> GrantOk(w, g))
    && (forall g, h :: g in w.grants && h in w.grants && SameBallot(g, h) ==> g == h)
  }

  ghost predicate CandidateOk(w: World, i: nat)
    requires Shape(w) && i < |w.peers|
  {
    var p := w.peers[i];
    && Candidacy(p.currentTerm, i) in w.candLogs && w.candLogs[Candidacy(p.currentTerm, i)] == p.log
    && i in w.counted[i] && p.votesGot == |w.counted[i]|
    && (forall v :: v in w.counted[i] ==> Grant(p.currentTerm, v, i) in w.grants)
  }

  ghost predicate CallOk(w: World, key: CallKey)
    requires Shape(w) && key in w.calls
  {
    && Candidacy(key.term, key.cand) in w.candLogs
    && (w.calls[key].Asked? ==>
      var log := w.candLogs[Candidacy(key.term, key.cand)];
      w.calls[key].args == RequestVoteArgs(key.term, key.cand, LastIndex(log), LastTerm(log)))
    && (w.calls[key].Answered? && w.calls[key].reply.voteGranted ==> Grant(key.term, key.voter, key.cand) in w.grants)
    && (w.peers[key.cand].role.Candidate? && w.peers[key.cand].currentTerm == key.term ==>
        key.voter !in w.counted[key.cand])
  }

  /** A candidate's count is the number of distinct peers that voted for it. */
  ghost predicate Campaigns(w: World)
    requires Shape(w)
  {
    && (forall i {:trigger CandidateOk(w, i)} :: 0 <= i < |w.peers| && w.peers[i].role.Candidate? ==> CandidateOk(w, i))
    && (forall key {:trigger CallOk(w, key)} :: key in w.calls ==> CallOk(w, key))
    && (forall c :: c in w.candLogs ==> c.cand < |w.peers| && 1 <= c.term <= w.peers[c.cand].currentTerm)
  }

  predicate Majority(s: set<nat>, n: nat) {
    (forall v :: v in s ==> v < n) && 2 * |s| > n
  }

  ghost predicate ElectionOk(w: World, term: nat)
    requires Shape(w) && term in w.elections
  {
    var e := w.elections[term];
    && term >= 1 && e.leader < |w.peers|
    && Candidacy(term, e.leader) in w.candLogs && e.base == w.candLogs[Candidacy(term, e.leader)]
    && Majority(e.voters, |w.peers|)
    && (forall v :: v in e.voters ==> Grant(term, v, e.leader) in w.grants)
    && w.peers[e.leader].currentTerm >= term
    && (w.peers[e.leader].currentTerm == term ==> w.peers[e.leader].role.Leader?)
    && (forall g :: g in w.grants && g.term == term && g.voter == e.leader ==> g.cand == e.leader)
  }

  ghost predicate Winners(w: World)
    requires Shape(w)
  {
    && w.elections.Keys == w.logs.Keys
    && (forall term {:trigger ElectionOk(w, term)} :: term in w.elections ==> ElectionOk(w, term))
    && (forall i :: 0 <= i < |w.peers| && w.peers[i].role.Leader? ==>
      w.peers[i].currentTerm in w.elections && w.elections[w.peers[i].currentTerm].leader == i)
  }

  // ---------- Logs ----------

  /** The log up to `k` is a prefix of the log of the leader of that entry's term. */
  ghost predicate EntryOk(logs: Logs, log: seq<LogEntry>, k: nat)
    requires k < |log|
  {
    log[k].index == k && log[k].term in logs && log[..k + 1] <= logs[log[k].term]
  }

  ghost predicate LogOk(logs: Logs, log: seq<LogEntry>, bound: nat) {
    && |log| > 0 && log[0] == SENTINEL
    && (forall k :: 1 <= k < |log| ==> EntryOk(logs, log, k))
    && (forall k :: 0 <= k < |log| ==> log[k].term <= bound)
  }

  ghost predicate LeaderLogOk(w: World, term: nat)
    requires term in w.logs && term in w.elections
  {
    var base := w.elections[term].base;
    && LogOk(w.logs, w.logs[term], term)
    && |base| > 0 && base <= w.logs[term]
    && (forall k :: 0 <= k < |base| ==> base[k].term < term)
    && (forall k :: |base| <= k < |w.logs[term]| ==> w.logs[term][k].term == term)
  }

  ghost predicate PeerLogOk(w: World, i: nat)
    requires i < |w.peers|
  {
    var p := w.peers[i];
    && LogOk(w.logs, p.log, p.currentTerm)
    && (p.role.Leader? ==> p.currentTerm in w.logs && p.log == w.logs[p.currentTerm])
  }

  ghost predicate LogsOk(w: World)
    requires Shape(w)
  {
    && (forall term :: term in w.logs ==> term in w.elections && term >= 1)
    && (forall term {:trigger LeaderLogOk(w, term)} :: term in w.logs ==> LeaderLogOk(w, term))
    && (forall i {:trigger PeerLogOk(w, i)} :: 0 <= i < |w.peers| ==> PeerLogOk(w, i))
    && (forall c :: c in w.candLogs && c.term >= 1 ==> LogOk(w.logs, w.candLogs[c], c.term - 1))
  }

  // ---------- Messages ----------

  ghost predicate AppendOk(w: World, m: Append)
    requires Shape(w) && m in w.appends
  {
    var a := m.args;
    && a.term in w.logs && a.term in w.elections && w.elections[a.term].leader == a.leaderId
    && 0 <= a.prevLogIndex && a.prevLogIndex + 1 + |a.entries| <= |w.logs[a.term]|
    && a.prevLogTerm == w.logs[a.term][a.prevLogIndex].term
    && a.entries == w.logs[a.term][a.prevLogIndex + 1..a.prevLogIndex + 1 + |a.entries|]
    && a.prevLogIndex + 1 + |a.entries| >= |w.elections[a.term].base|
    && a.leaderCommit <= a.prevLogIndex + |a.entries|
    && (|a.entries| > 0 && a.prevLogIndex + 1 + |a.entries| == |w.elections[a.term].base| ==> Caught(w, m.to, a.term))
  }

  /** The follower has reached the term, and if it is still there, its log is a prefix of the leader's
      or lacks part of the log the leader was elected with. */
  ghost predicate Caught(w: World, f: nat, term: nat)
    requires term in w.logs && term in w.elections && f < |w.peers|
  {
    var p := w.peers[f];
    && p.currentTerm >= term
    && (p.currentTerm == term ==> p.log <= w.logs[term] || !(w.elections[term].base <= p.log))
  }

  /** The leader of `term` has not appended anything yet. */
  ghost predicate Idle(w: World, term: nat)
    requires term in w.logs && term in w.elections
  {
    |w.logs[term]| == |w.elections[term].base|
  }

  ghost predicate HeldUpTo(w: World, term: nat, f: nat, last: nat) {
    forall k :: 0 <= k <= last ==> Held(term, f, k) in w.held
  }

  ghost predicate AckOk(w: World, a: Ack)
    requires Shape(w) && a in w.acks
  {
    var r := a.reply;
    && a.sentTerm in w.logs && a.sentTerm in w.elections && w.elections[a.sentTerm].leader == a.leader
    && r.term >= a.sentTerm
    && (r.success && !r.isHeartbeat ==>
      && r.lastLogIndex < |w.logs[a.sentTerm]|
      && |w.elections[a.sentTerm].base| <= r.lastLogIndex + 1
      && HeldUpTo(w, a.sentTerm, r.followerId, r.lastLogIndex))
    && (!r.success && r.term == a.sentTerm && Idle(w, a.sentTerm) ==> Caught(w, r.followerId, a.sentTerm))
  }

  ghost predicate LeaderViewOk(w: World, i: nat, f: nat)
    requires Shape(w) && i < |w.peers| && f < |w.peers|
  {
    var p := w.peers[i];
    && p.currentTerm in w.logs && p.currentTerm in w.elections
    && p.nextIndex[f] <= |p.log|
    && p.matchIndex[f] < |p.log|
    && (p.matchIndex[f] > 0 ==> HeldUpTo(w, p.currentTerm, f, p.matchIndex[f]))
    && (p.nextIndex[f] < |w.elections[p.currentTerm].base| && Idle(w, p.currentTerm) ==> Caught(w, f, p.currentTerm))
  }

  ghost predicate Traffic(w: World)
    requires Shape(w)
  {
    && (forall m {:trigger AppendOk(w, m)} :: m in w.appends ==> AppendOk(w, m))
    && (forall a {:trigger AckOk(w, a)} :: a in w.acks ==> AckOk(w, a))
    && (forall i, f {:trigger LeaderViewOk(w, i, f)} ::
          0 <= i < |w.peers| && 0 <= f < |w.peers| && f != i && w.peers[i].role.Leader? ==> LeaderViewOk(w, i, f))
  }

  // ---------- Acknowledged and committed entries ----------

  /** A leader of a term in (from, to) was elected without the first k + 1 entries of the leader of `from`. */
  ghost predicate Lost(w: World, from: nat, k: nat, to: nat)
    requires from in w.logs && k < |w.logs[from]|
  {
    exists t :: from < t < to && t in w.elections && !(w.logs[from][..k + 1] <= w.elections[t].base)
  }

  ghost predicate HeldOk(w: World, h: Held)
    requires Shape(w)
  {
    && h.term in w.logs && h.peer < |w.peers| && h.index < |w.logs[h.term]|
    && h.term <= w.peers[h.peer].currentTerm
    && (w.logs[h.term][..h.index + 1] <= w.peers[h.peer].log
        || Lost(w, h.term, h.index, w.peers[h.peer].currentTerm + 1))
  }

  predicate AtLeast(log: seq<LogEntry>, term: nat, index: nat) {
    LastTerm(log) > term || (LastTerm(log) == term && |log| > index)
  }

  /** A vote that counts, cast after an acknowledgement, went to a candidate whose log is at least as
      up to date as the acknowledged entry. */
  ghost predicate VoteAfterHeld(w: World, g: Grant, h: Held)
    requires Shape(w) && HeldOk(w, h) && GrantOk(w, g)
  {
    h.peer == g.voter && h.term < g.term && w.logs[h.term][h.index].term == h.term
    && (g.term in w.elections ==> g.cand == w.elections[g.term].leader && g.voter in w.elections[g.term].voters)
    ==> AtLeast(w.candLogs[Candidacy(g.term, g.cand)], h.term, h.index) || Lost(w, h.term, h.index, g.term)
  }

  ghost predicate Holding(w: World)
    requires Shape(w)
  {
    forall h {:trigger HeldOk(w, h)} :: h in w.held ==> HeldOk(w, h)
  }

  ghost predicate Voting(w: World)
    requires Shape(w) && Holding(w) && Ballots(w)
  {
    forall g, h {:trigger VoteAfterHeld(w, g, h)} :: g in w.grants && h in w.held ==> VoteAfterHeld(w, g, h)
  }

  ghost predicate HeldByAll(w: World, q: set<nat>, term: nat, index: nat) {
    forall f :: f in q ==> Held(term, f, index) in w.held
  }

  ghost predicate CommitOk(w: World, c: Commit)
    requires Shape(w)
  {
    && c.term in w.logs && 1 <= c.index < |w.logs[c.term]| && w.logs[c.term][c.index].term == c.term
    && exists q :: Majority(q, |w.peers|) && HeldByAll(w, q, c.term, c.index)
  }

  /** `log` up to `index` is part of what some leader of a term up to `bound` has committed. */
  ghost predicate Covered(w: World, log: seq<LogEntry>, index: nat, bound: nat) {
    && index < |log|
    && (index > 0 ==> exists c :: c in w.commits && CoveredBy(w, log, index, bound, c))
  }

  ghost predicate CoveredBy(w: World, log: seq<LogEntry>, index: nat, bound: nat, c: Commit)
    requires index < |log|
  {
    c.term <= bound && index <= c.index && c.term in w.logs && log[..index + 1] <= w.logs[c.term]
  }

  ghost predicate Committed(w: World)
    requires Shape(w)
  {
    && (forall c {:trigger CommitOk(w, c)} :: c in w.commits ==> CommitOk(w, c))
    && (forall i :: 0 <= i < |w.peers| ==>
      Covered(w, w.peers[i].log, w.peers[i].commitIndex, w.peers[i].currentTerm))
    && (forall m :: m in w.appends ==>
      m.args.term in w.logs && Covered(w, w.logs[m.args.term], m.args.leaderCommit, m.args.term))
  }

  // ---------- Delivery ----------

  ghost predicate DeliveredOk(p: Peer, sent: seq<ApplyMsg>) {
    && p.lastApplied <= p.commitIndex < |p.log|
    && (forall j :: 0 <= j < |sent| ==>
      && 1 <= sent[j].commandIndex <= p.commitIndex
      && sent[j] == ApplyMsg(true, p.log[sent[j].commandIndex].command, sent[j].commandIndex))
    && (forall k :: 1 <= k <= p.commitIndex ==> ApplyMsg(true, p.log[k].command, k) in sent)
  }

  ghost predicate Delivered(w: World)
    requires Shape(w)
  {
    forall i :: 0 <= i < |w.peers| ==> DeliveredOk(w.peers[i], w.applied[i])
  }

  ghost predicate Inv(w: World) {
    && Shape(w) && Ballots(w) && Campaigns(w) && Winners(w) && LogsOk(w) && Traffic(w)
    && Holding(w) && Voting(w) && Committed(w) && Delivered(w)
  }
}
