/** What is committed stays. */
module RaftCommitment {
  import opened RaftTypes
  import opened RaftLog
  import opened RaftHandlers
  import opened RaftWorld
  import opened RaftInvariant
  import opened RaftReplication
  import opened RaftTraffic
  import opened RaftCompleteness
  import opened RaftVoting

  // What has been committed stays in every log that counts on it, and what has been delivered is what was
  // committed.

  /** What commitments need of a step. */
  ghost predicate KeepsCommits(w: World, v: World) {
    |v.peers| == |w.peers| && Extends(w.logs, v.logs) && w.held <= v.held && w.commits <= v.commits
  }

  lemma CommitOkKept(w: World, v: World, c: Commit)
    requires Shape(w) && Shape(v) && KeepsCommits(w, v) && CommitOk(w, c)
    ensures CommitOk(v, c)
  {
    var q :| Majority(q, |w.peers|) && HeldByAll(w, q, c.term, c.index);
    assert HeldByAll(v, q, c.term, c.index);
  }

  lemma CoveredKept(w: World, v: World, log: seq<LogEntry>, index: nat, bound: nat, log': seq<LogEntry>, bound': nat)
    requires KeepsCommits(w, v) && Covered(w, log, index, bound) && bound <= bound'
    requires index < |log'| && log'[..index + 1] == log[..index + 1]
    ensures Covered(v, log', index, bound')
  {
    if index > 0 {
      var c :| c in w.commits && CoveredBy(w, log, index, bound, c);
      assert CoveredBy(v, log', index, bound', c);
    }
  }

  /** No log loses anything up to its commit index, and no new commitment is made. */
  ghost predicate KeepsPrefixes(w: World, v: World) {
    && KeepsCommits(w, v) && v.commits == w.commits
    && (forall i :: 0 <= i < |w.peers| ==>
      && w.peers[i].currentTerm <= v.peers[i].currentTerm && v.peers[i].commitIndex == w.peers[i].commitIndex
      && w.peers[i].log <= v.peers[i].log)
  }

  lemma PrefixesKeepCommitted(w: World, v: World)
    requires Shape(w) && Shape(v) && Committed(w) && KeepsPrefixes(w, v) && v.appends == w.appends
    ensures Committed(v)
  {
    forall c | c in v.commits ensures CommitOk(v, c) { CommitOkKept(w, v, c); }
    forall i | 0 <= i < |v.peers| ensures Covered(v, v.peers[i].log, v.peers[i].commitIndex, v.peers[i].currentTerm) {
      CoveredKept(w, v, w.peers[i].log, w.peers[i].commitIndex, w.peers[i].currentTerm, v.peers[i].log,
        v.peers[i].currentTerm);
    }
    AppendsStayCovered(w, v);
  }

  lemma AppendsStayCovered(w: World, v: World)
    requires Shape(w) && Shape(v) && Committed(w) && KeepsCommits(w, v) && v.appends == w.appends
    ensures forall m :: m in v.appends ==>
        m.args.term in v.logs && Covered(v, v.logs[m.args.term], m.args.leaderCommit, m.args.term)
  {
    forall m | m in v.appends
      ensures m.args.term in v.logs && Covered(v, v.logs[m.args.term], m.args.leaderCommit, m.args.term)
    {
      CoveredKept(w, v, w.logs[m.args.term], m.args.leaderCommit, m.args.term, v.logs[m.args.term], m.args.term);
    }
  }

  lemma ReplicateKeepsCommitted(w: World, i: nat)
    requires Shape(w) && LogsOk(w) && Committed(w) && Enabled(w, Replicate(i)) && Shape(AfterReplicate(w, i))
    ensures Committed(AfterReplicate(w, i))
  {
    var v := AfterReplicate(w, i);
    assert PeerLogOk(w, i);
    forall c | c in v.commits ensures CommitOk(v, c) { CommitOkKept(w, v, c); }
    forall j | 0 <= j < |v.peers| ensures Covered(v, v.peers[j].log, v.peers[j].commitIndex, v.peers[j].currentTerm) {
      CoveredKept(w, v, w.peers[j].log, w.peers[j].commitIndex, w.peers[j].currentTerm, v.peers[j].log,
        v.peers[j].currentTerm);
    }
    forall m | m in v.appends
      ensures m.args.term in v.logs && Covered(v, v.logs[m.args.term], m.args.leaderCommit, m.args.term)
    {
      if m in w.appends {
        CoveredKept(w, v, w.logs[m.args.term], m.args.leaderCommit, m.args.term, v.logs[m.args.term], m.args.term);
      } else {
        var p := w.peers[i];
        CoveredKept(w, v, p.log, p.commitIndex, p.currentTerm, v.logs[m.args.term], m.args.term);
      }
    }
  }

  // ---------- Append requests ----------

  /** One commitment: it is in the log of every leader of its own or a later term. */
  lemma CommitInLog(w: World, c: Commit, t: nat)
    requires Shape(w) && Ballots(w) && Winners(w) && LogsOk(w) && Holding(w) && Voting(w)
    requires c in w.commits && CommitOk(w, c) && t in w.elections && c.term <= t
    ensures t in w.logs && w.logs[c.term][..c.index + 1] <= w.logs[t]
  {
    if c.term < t {
      LeaderCompleteness(w, c, t);
    }
    assert LeaderLogOk(w, t);
  }

  /** What a log is committed up to is in the log of every leader of the same or a later term. */
  lemma CoveredByLeader(w: World, log: seq<LogEntry>, index: nat, bound: nat, t: nat)
    requires t in w.logs && LogOk(w.logs, w.logs[t], t)
    requires |log| > 0 && log[0] == SENTINEL && Covered(w, log, index, bound) && bound <= t
    requires forall c :: c in w.commits && c.term <= t && c.term in w.logs && c.index < |w.logs[c.term]| ==>
                           w.logs[c.term][..c.index + 1] <= w.logs[t]
    requires forall c :: c in w.commits ==> c.term in w.logs && c.index < |w.logs[c.term]|
    ensures log[..index + 1] <= w.logs[t]
  {
    if index > 0 {
      var c :| c in w.commits && CoveredBy(w, log, index, bound, c);
      assert log[..index + 1] <= w.logs[c.term][..c.index + 1];
    } else {
      assert log[..1] == [SENTINEL];
    }
  }

  /** A follower that gets a request has its committed entries in the log of the request's leader. */
  lemma FollowerCovered(w: World, i: nat, t: nat)
    requires Shape(w) && Ballots(w) && Winners(w) && LogsOk(w) && Holding(w) && Voting(w) && Committed(w)
    requires i < |w.peers| && t in w.logs && w.peers[i].currentTerm <= t
    ensures w.peers[i].commitIndex < |w.peers[i].log|
    ensures w.peers[i].log[..w.peers[i].commitIndex + 1] <= w.logs[t]
  {
    assert PeerLogOk(w, i) && LeaderLogOk(w, t);
    forall c | c in w.commits ensures c.term in w.logs && c.index < |w.logs[c.term]|
      && (c.term <= t ==> w.logs[c.term][..c.index + 1] <= w.logs[t])
    {
      assert CommitOk(w, c);
      if c.term <= t { CommitInLog(w, c, t); }
    }
    CoveredByLeader(w, w.peers[i].log, w.peers[i].commitIndex, w.peers[i].currentTerm, t);
  }

  /** The committed part of a log is kept. */
  ghost predicate CommitSafe(p: Peer, q: Peer) {
    && p.commitIndex < |p.log| && p.commitIndex < |q.log| && q.log[..p.commitIndex + 1] == p.log[..p.commitIndex + 1]
  }

  /** Replacing a log by part of a longer one keeps what both hold. */
  lemma CommonPart(log: seq<LogEntry>, n: nat, sent: seq<LogEntry>, lead: seq<LogEntry>)
    requires n <= |log| && log[..n] <= lead && sent <= lead && !(sent <= log)
    ensures n <= |sent| && sent[..n] == log[..n]
  {}

  /** A follower never truncates at or below its own commit index. */
  lemma NoTruncationBelowCommit(w: World, v: World, m: Append, out: AppendOutcome)
    requires Shape(w) && LogsOk(w) && AppendStep(w, v, m, out) && w.peers[m.to].commitIndex < |w.peers[m.to].log|
    requires w.peers[m.to].log[..w.peers[m.to].commitIndex + 1] <= w.logs[m.args.term]
    ensures CommitSafe(w.peers[m.to], out.peer)
  {
    var p := w.peers[m.to];
    AppendForm(w, v, m, out);
    if out.peer.log != p.log {
      CommonPart(p.log, p.commitIndex + 1, Sent(w, m), w.logs[m.args.term]);
    }
  }

  /** The commit index a follower adopts never exceeds what the request vouches for, although it is
      bounded by the follower's last entry only. */
  lemma FollowerCommit(w: World, v: World, m: Append, out: AppendOutcome)
    requires Shape(w) && LogsOk(w) && AppendStep(w, v, m, out) && LogOk(w.logs, out.peer.log, m.args.term)
    requires out.reply.success && m.args.leaderCommit > w.peers[m.to].commitIndex
    ensures out.peer.commitIndex == m.args.leaderCommit < |Sent(w, m)| <= |out.peer.log|
    ensures out.peer.log[..m.args.leaderCommit + 1] == w.logs[m.args.term][..m.args.leaderCommit + 1]
  {
    AppendForm(w, v, m, out);
    IndexedLog(w.logs, out.peer.log, m.args.term);
    assert Sent(w, m) <= out.peer.log;
  }

  /** The follower's commit index stands for committed entries afterwards. */
  lemma FollowerStaysCovered(w: World, v: World, m: Append, out: AppendOutcome)
    requires Shape(w) && LogsOk(w) && Committed(w) && AppendStep(w, v, m, out)
    requires LogOk(w.logs, out.peer.log, m.args.term) && CommitSafe(w.peers[m.to], out.peer)
    ensures Covered(v, out.peer.log, out.peer.commitIndex, m.args.term)
  {
    var p := w.peers[m.to];
    if out.reply.success && m.args.leaderCommit > p.commitIndex {
      FollowerCommit(w, v, m, out);
      CoveredKept(w, v, w.logs[m.args.term], m.args.leaderCommit, m.args.term, out.peer.log, m.args.term);
    } else {
      CoveredKept(w, v, p.log, p.commitIndex, p.currentTerm, out.peer.log, m.args.term);
    }
  }

  lemma AppendStepKeepsCommitted(w: World, v: World, m: Append, out: AppendOutcome)
    requires Shape(w) && Shape(v) && Committed(w) && AppendStep(w, v, m, out)
    requires Covered(v, out.peer.log, out.peer.commitIndex, m.args.term)
    ensures Committed(v)
  {
    forall c | c in v.commits ensures CommitOk(v, c) { CommitOkKept(w, v, c); }
    AppendsStayCovered(w, v);
    forall i | 0 <= i < |v.peers| && i != m.to
      ensures Covered(v, v.peers[i].log, v.peers[i].commitIndex, v.peers[i].currentTerm)
    {
      CoveredKept(w, v, w.peers[i].log, w.peers[i].commitIndex, w.peers[i].currentTerm, v.peers[i].log,
        v.peers[i].currentTerm);
    }
  }

  // ---------- Commitment by the leader ----------

  /** What the leader commits is held by a majority and of its own term. */
  lemma LeaderCommit(w: World, v: World, a: Ack, out: CommitOutcome)
    requires Shape(w) && Shape(v) && LogsOk(w) && Traffic(w) && a in w.acks && Acknowledged(w, v, a, out)
    requires out.peer.commitIndex != w.peers[a.leader].commitIndex
    ensures CommitOk(v, Commit(w.peers[a.leader].currentTerm, out.peer.commitIndex))
    ensures out.peer.commitIndex < |out.peer.log|
  {
    var p := w.peers[a.leader];
    var p' := Acknowledge(p, a.reply.followerId, a.reply.lastLogIndex);
    var index := out.peer.commitIndex;
    assert AckOk(w, a) && PeerLogOk(w, a.leader);
    var q := Replicas(p', index);
    assert Majority(q, |v.peers|);
    forall f | f in q ensures Held(p.currentTerm, f, index) in v.held {
      if f != a.leader {
        assert LeaderViewOk(w, a.leader, f);
      }
    }
    assert HeldByAll(v, q, p.currentTerm, index);
  }

  lemma AcknowledgedKeepsCommitted(w: World, v: World, a: Ack, out: CommitOutcome)
    requires Shape(w) && Shape(v) && LogsOk(w) && Traffic(w) && Committed(w) && a in w.acks
      && Acknowledged(w, v, a, out)
    ensures Committed(v)
  {
    var p := w.peers[a.leader];
    var i := a.leader;
    assert PeerLogOk(w, i);
    if out.peer.commitIndex != p.commitIndex {
      LeaderCommit(w, v, a, out);
      assert CoveredBy(v, out.peer.log, out.peer.commitIndex, p.currentTerm,
        Commit(p.currentTerm, out.peer.commitIndex));
    } else {
      CoveredKept(w, v, p.log, p.commitIndex, p.currentTerm, out.peer.log, p.currentTerm);
    }
    forall c | c in v.commits ensures CommitOk(v, c) {
      if c in w.commits { CommitOkKept(w, v, c); }
    }
    forall j | 0 <= j < |v.peers| && j != i
      ensures Covered(v, v.peers[j].log, v.peers[j].commitIndex, v.peers[j].currentTerm)
    {
      CoveredKept(w, v, w.peers[j].log, w.peers[j].commitIndex, w.peers[j].currentTerm, v.peers[j].log,
        v.peers[j].currentTerm);
    }
    AppendsStayCovered(w, v);
  }

  // ---------- Delivery ----------

  /** Peer `q`, with its old committed entries kept, has delivered the entries from + 1 .. commitIndex. */
  ghost predicate DeliversMore(p: Peer, sent: seq<ApplyMsg>, q: Peer, more: seq<ApplyMsg>, from: nat) {
    && DeliveredOk(p, sent) && Indexed(q.log) && CommitSafe(p, q)
    && p.commitIndex <= q.commitIndex < |q.log| && q.lastApplied <= q.commitIndex
    && from <= p.commitIndex && more == Deliveries(q.log, from, q.commitIndex)
  }

  lemma EveryOneDelivered(p: Peer, sent: seq<ApplyMsg>, q: Peer, more: seq<ApplyMsg>, from: nat, k: nat)
    requires DeliversMore(p, sent, q, more, from) && 1 <= k <= q.commitIndex
    ensures ApplyMsg(true, q.log[k].command, k) in sent + more
  {
    if k <= p.commitIndex {
      assert q.log[k] == q.log[..p.commitIndex + 1][k];
      assert ApplyMsg(true, p.log[k].command, k) in sent;
    } else {
      assert more[k - from - 1] == ApplyMsg(true, q.log[k].command, k);
    }
  }

  lemma OnlyCommittedDelivered(p: Peer, sent: seq<ApplyMsg>, q: Peer, more: seq<ApplyMsg>, from: nat, j: nat)
    requires DeliversMore(p, sent, q, more, from) && j < |sent + more|
    ensures var s := (sent + more)[j];
      1 <= s.commandIndex <= q.commitIndex && s == ApplyMsg(true, q.log[s.commandIndex].command, s.commandIndex)
  {
    if j < |sent| {
      var k := sent[j].commandIndex;
      assert q.log[k] == q.log[..p.commitIndex + 1][k];
    } else {
      assert (sent + more)[j] == more[j - |sent|];
    }
  }

  /** Delivering the entries from + 1 .. to, for `from` up to the old commit index, leaves no gap. */
  lemma DeliveryOk(p: Peer, sent: seq<ApplyMsg>, q: Peer, more: seq<ApplyMsg>, from: nat)
    requires DeliversMore(p, sent, q, more, from)
    ensures DeliveredOk(q, sent + more)
  {
    var all := sent + more;
    forall k | 1 <= k <= q.commitIndex ensures ApplyMsg(true, q.log[k].command, k) in all {
      EveryOneDelivered(p, sent, q, more, from, k);
    }
    forall j | 0 <= j < |all|
      ensures 1 <= all[j].commandIndex <= q.commitIndex
      ensures all[j] == ApplyMsg(true, q.log[all[j].commandIndex].command, all[j].commandIndex)
    {
      OnlyCommittedDelivered(p, sent, q, more, from, j);
    }
  }

  lemma PrefixesKeepDelivered(w: World, v: World)
    requires Shape(w) && Shape(v) && Delivered(w) && KeepsPrefixes(w, v) && v.applied == w.applied
    requires forall i :: 0 <= i < |w.peers| ==> v.peers[i].lastApplied == w.peers[i].lastApplied
    ensures Delivered(v)
  {
    forall i | 0 <= i < |v.peers| ensures DeliveredOk(v.peers[i], v.applied[i]) {
      assert DeliveredOk(w.peers[i], w.applied[i]);
    }
  }

  lemma AppendStepKeepsDelivered(w: World, v: World, m: Append, out: AppendOutcome)
    requires Shape(w) && LogsOk(w) && Delivered(w) && Shape(v) && AppendStep(w, v, m, out)
    requires LogOk(w.logs, out.peer.log, m.args.term) && CommitSafe(w.peers[m.to], out.peer)
    ensures Delivered(v)
  {
    var p := w.peers[m.to];
    assert DeliveredOk(p, w.applied[m.to]);
    IndexedLog(w.logs, out.peer.log, m.args.term);
    if out.reply.success && m.args.leaderCommit > p.commitIndex {
      FollowerCommit(w, v, m, out);
    }
    DeliveryOk(p, w.applied[m.to], out.peer, out.sent, p.commitIndex);
    forall i | 0 <= i < |v.peers| && i != m.to ensures DeliveredOk(v.peers[i], v.applied[i]) {
      assert DeliveredOk(w.peers[i], w.applied[i]);
    }
  }

  lemma AcknowledgedKeepsDelivered(w: World, v: World, a: Ack, out: CommitOutcome)
    requires Shape(w) && Shape(v) && LogsOk(w) && Traffic(w) && Delivered(w) && a in w.acks
      && Acknowledged(w, v, a, out)
    ensures Delivered(v)
  {
    var p := w.peers[a.leader];
    assert DeliveredOk(p, w.applied[a.leader]) && PeerLogOk(w, a.leader) && AckOk(w, a);
    IndexedLog(w.logs, p.log, p.currentTerm);
    if a.reply.lastLogIndex > p.commitIndex {
      DeliveryOk(p, w.applied[a.leader], out.peer, out.sent, p.lastApplied);
    } else {
      assert w.applied[a.leader] + out.sent == w.applied[a.leader];
    }
    forall i | 0 <= i < |v.peers| && i != a.leader ensures DeliveredOk(v.peers[i], v.applied[i]) {
      assert DeliveredOk(w.peers[i], w.applied[i]);
    }
  }
}
