/** What holds of every run of a cluster. */
module RaftTheorems {
  import opened Runs
  import opened RaftTypes
  import opened RaftLog
  import opened RaftHandlers
  import opened RaftWorld
  import opened RaftInvariant
  import opened RaftElections
  import opened RaftReplication
  import opened RaftTraffic
  import opened RaftVoting
  import opened RaftCommitment
  import opened RaftSafety

  // Sections 5.2 to 5.4 of the Raft paper, for this implementation.

  ghost predicate Next(w: World, v: World) {
    Shape(w) && exists step :: Enabled(w, step) && v == After(w, step)
  }

  /** The states of a run of `n` peers, from the initial one on. */
  ghost predicate Run(ws: seq<World>, n: nat) {
    n > 0 && Steps(ws, Init(n), Next)
  }

  lemma NextKeepsInv(w: World, v: World)
    requires Inv(w) && Next(w, v)
    ensures Inv(v) && |v.peers| == |w.peers|
  {
    var step :| Enabled(w, step) && v == After(w, step);
    StepKeepsInv(w, step);
  }

  lemma {:induction false} RunInv(ws: seq<World>, n: nat, i: nat)
    requires Run(ws, n) && i < |ws|
    ensures Inv(ws[i]) && |ws[i].peers| == n
  {
    if i == 0 {
      InitInv(n);
    } else {
      RunInv(ws, n, i - 1);
      StepAt(ws, Init(n), Next, i - 1);
      NextKeepsInv(ws[i - 1], ws[i]);
    }
  }

  /** Where a run stands before a step, and that it is one. */
  lemma NextOf(ws: seq<World>, n: nat, i: nat)
    requires Run(ws, n) && i + 1 < |ws|
    ensures Inv(ws[i]) && Next(ws[i], ws[i + 1])
  {
    RunInv(ws, n, i);
    StepAt(ws, Init(n), Next, i);
  }

  // ---------- What never changes again ----------

  ghost predicate PeerLater(p: Peer, q: Peer) {
    && p.currentTerm <= q.currentTerm && p.commitIndex <= q.commitIndex && CommitSafe(p, q)
  }

  /** Elections, commitments and deliveries are final; leaders' logs and commit indices only grow. */
  ghost predicate Later(w: World, v: World) {
    && |v.peers| == |w.peers| && |v.applied| == |w.applied| == |w.peers|
    && Extends(w.logs, v.logs) && w.commits <= v.commits
    && (forall t :: t in w.elections ==> t in v.elections && v.elections[t] == w.elections[t])
    && (forall i {:trigger PeerLater(w.peers[i], v.peers[i])} :: 0 <= i < |w.peers| ==>
        PeerLater(w.peers[i], v.peers[i]))
    && (forall i :: 0 <= i < |w.peers| ==> w.applied[i] <= v.applied[i])
  }

  lemma LaterTransitive(u: World, w: World, v: World)
    requires Later(u, w) && Later(w, v)
    ensures Later(u, v)
  {
    forall i | 0 <= i < |u.peers| ensures PeerLater(u.peers[i], v.peers[i]) {
      assert PeerLater(u.peers[i], w.peers[i]) && PeerLater(w.peers[i], v.peers[i]);
      var n := u.peers[i].commitIndex + 1;
      assert w.peers[i].log[..w.peers[i].commitIndex + 1][..n] == w.peers[i].log[..n];
      assert v.peers[i].log[..w.peers[i].commitIndex + 1][..n] == v.peers[i].log[..n];
    }
  }

  lemma GrowingPeers(w: World, v: World)
    requires Inv(w) && |v.peers| == |w.peers|
    requires forall i :: 0 <= i < |w.peers| ==>
      w.peers[i].currentTerm <= v.peers[i].currentTerm && w.peers[i].commitIndex <= v.peers[i].commitIndex
      && w.peers[i].log <= v.peers[i].log
    ensures forall i {:trigger PeerLater(w.peers[i], v.peers[i])} :: 0 <= i < |w.peers| ==>
        PeerLater(w.peers[i], v.peers[i])
  {
    forall i | 0 <= i < |w.peers| ensures PeerLater(w.peers[i], v.peers[i]) {
      assert DeliveredOk(w.peers[i], w.applied[i]);
    }
  }

  lemma AppendStepLater(w: World, v: World, m: Append, out: AppendOutcome)
    requires Inv(w) && AppendStep(w, v, m, out)
    ensures Later(w, v)
  {
    FollowerCovered(w, m.to, m.args.term);
    NoTruncationBelowCommit(w, v, m, out);
    ReceiverLog(w, v, m, out);
    if out.reply.success && m.args.leaderCommit > w.peers[m.to].commitIndex {
      FollowerCommit(w, v, m, out);
    }
    forall i | 0 <= i < |w.peers| ensures PeerLater(w.peers[i], v.peers[i]) {
      assert DeliveredOk(w.peers[i], w.applied[i]);
    }
  }

  lemma AckLater(w: World, a: Ack)
    requires Inv(w) && Enabled(w, DeliverAck(a))
    ensures Later(w, AfterAck(w, a))
  {
    var v := AfterAck(w, a);
    var out := DeliverAckForm(w, a);
    if Acknowledged(w, v, a, out) {
      CommitAtForm(Acknowledge(w.peers[a.leader], a.reply.followerId, a.reply.lastLogIndex), a.reply.lastLogIndex);
    }
    GrowingPeers(w, v);
  }

  lemma WonLater(w: World, v: World, c: nat, voters: set<nat>)
    requires Inv(w) && WonStep(w, v, c, voters)
    ensures Later(w, v)
  {
    GrowingPeers(w, v);
  }

  lemma QuietLater(w: World, v: World)
    requires Inv(w) && Quiet(w, v)
    ensures Later(w, v)
  {
    GrowingPeers(w, v);
  }

  lemma VoteReplyLater(w: World, key: CallKey)
    requires Inv(w) && Enabled(w, DeliverVoteReply(key))
    ensures Later(w, AfterVoteReply(w, key))
  {
    if Wins(w, key) {
      VoteReplyWinner(w, key);
      WinsWon(w, key);
      WonLater(w, AfterVoteReply(w, key), key.cand, w.counted[key.cand] + {key.voter});
    } else {
      QuietSteps(w, DeliverVoteReply(key));
      QuietLater(w, AfterVoteReply(w, key));
    }
  }

  lemma SubmitLater(w: World, i: nat, command: Command)
    requires Inv(w) && Enabled(w, Submit(i, command))
    ensures Later(w, AfterSubmit(w, i, command))
  {
    SubmitForm(w, i, command);
    assert PeerLogOk(w, i);
    GrowingPeers(w, AfterSubmit(w, i, command));
  }

  lemma AppendLater(w: World, m: Append)
    requires Inv(w) && Enabled(w, DeliverAppend(m))
    ensures Later(w, AfterAppend(w, m))
  {
    var v := AfterAppend(w, m);
    var out := DeliverAppendForm(w, m);
    if AppendStep(w, v, m, out) { AppendStepLater(w, v, m, out); } else { GrowingPeers(w, v); }
  }

  lemma NextLater(w: World, v: World)
    requires Inv(w) && Next(w, v)
    ensures Later(w, v)
  {
    var step :| Enabled(w, step) && v == After(w, step);
    match step
    case DeliverAppend(m) => AppendLater(w, m);
    case DeliverAck(a) => AckLater(w, a);
    case DeliverVoteReply(key) => VoteReplyLater(w, key);
    case Submit(i, command) => SubmitLater(w, i, command);
    case Replicate(i) => GrowingPeers(w, v);
    case _ => QuietSteps(w, step); QuietLater(w, v);
  }

  lemma LaterNext(ws: seq<World>, n: nat, i: nat)
    requires Run(ws, n) && i + 1 < |ws|
    ensures Later(ws[i], ws[i + 1])
  {
    NextOf(ws, n, i);
    NextLater(ws[i], ws[i + 1]);
  }

  lemma LaterReflexive(w: World)
    requires Inv(w)
    ensures Later(w, w)
  {
    GrowingPeers(w, w);
  }

  lemma {:induction false} RunLater(ws: seq<World>, n: nat, i: nat, j: nat)
    requires Run(ws, n) && i <= j < |ws|
    ensures Later(ws[i], ws[j])
    decreases j
  {
    if i == j {
      RunInv(ws, n, j);
      LaterReflexive(ws[j]);
    } else {
      RunLater(ws, n, i, j - 1);
      LaterNext(ws, n, j - 1);
      LaterTransitive(ws[i], ws[j - 1], ws[j]);
    }
  }

  // ---------- Section 5.2: Election Safety ----------

  /** At most one peer is ever leader in a term. */
  lemma ElectionSafety(ws: seq<World>, n: nat, i: nat, j: nat, a: nat, b: nat)
    requires Run(ws, n) && i < |ws| && j < |ws| && a < n && b < n
    requires |ws[i].peers| == n && |ws[j].peers| == n
    requires ws[i].peers[a].role.Leader? && ws[j].peers[b].role.Leader?
    requires ws[i].peers[a].currentTerm == ws[j].peers[b].currentTerm
    ensures a == b
  {
    RunInv(ws, n, i);
    RunInv(ws, n, j);
    if i <= j { RunLater(ws, n, i, j); } else { RunLater(ws, n, j, i); }
  }

  // ---------- Section 5.3: Log Matching ----------

  /** Every log starts with the sentinel, has each entry at its own index, and never goes back in term. */
  lemma LogShape(ws: seq<World>, n: nat, i: nat, a: nat, j: nat, k: nat)
    requires Run(ws, n) && i < |ws| && a < |ws[i].peers| && j <= k < |ws[i].peers[a].log|
    ensures ws[i].peers[a].log[0] == SENTINEL && ws[i].peers[a].log[k].index == k
    ensures ws[i].peers[a].log[j].term <= ws[i].peers[a].log[k].term <= ws[i].peers[a].currentTerm
  {
    RunInv(ws, n, i);
    var w, p := ws[i], ws[i].peers[a];
    assert PeerLogOk(w, a);
    IndexedLog(w.logs, p.log, p.currentTerm);
    assert p.log[k].term in w.logs ==> LeaderLogOk(w, p.log[k].term);
    Sorted(w.logs, p.log, p.currentTerm, j, k);
  }

  /** Two logs, at any two moments, with entries of one term at one index agree up to there. */
  lemma LogMatching(ws: seq<World>, n: nat, i: nat, j: nat, a: nat, b: nat, k: nat)
    requires Run(ws, n) && i <= j < |ws| && a < |ws[i].peers| && b < |ws[j].peers|
    requires k < |ws[i].peers[a].log| && k < |ws[j].peers[b].log|
    requires ws[i].peers[a].log[k].term == ws[j].peers[b].log[k].term
    ensures ws[i].peers[a].log[..k + 1] == ws[j].peers[b].log[..k + 1]
  {
    RunInv(ws, n, i);
    RunInv(ws, n, j);
    RunLater(ws, n, i, j);
    var p, q := ws[i].peers[a], ws[j].peers[b];
    assert PeerLogOk(ws[i], a) && PeerLogOk(ws[j], b);
    LogOkGrows(ws[i].logs, ws[j].logs, p.log, p.currentTerm, p.currentTerm);
    SamePrefix(ws[j].logs, p.log, q.log, p.currentTerm, q.currentTerm, k);
  }

  /** Entries in flight are part of such logs too: an entry of a request and an entry of a log with equal
      index and term are the same, and the log agrees with the sender's up to there. */
  lemma InFlightMatching(ws: seq<World>, n: nat, i: nat, m: Append, x: nat, a: nat)
    requires Run(ws, n) && i < |ws| && m in ws[i].appends && x < |m.args.entries| && a < |ws[i].peers|
    requires var e := m.args.entries[x];
      e.index < |ws[i].peers[a].log| && ws[i].peers[a].log[e.index].term == e.term
    ensures var e := m.args.entries[x];
      && ws[i].peers[a].log[e.index] == e && m.args.term in ws[i].logs
      && ws[i].peers[a].log[..e.index + 1] <= ws[i].logs[m.args.term]
  {
    var w := ws[i];
    RunInv(ws, n, i);
    assert AppendOk(w, m) && PeerLogOk(w, a) && LeaderLogOk(w, m.args.term);
    var lead, k := w.logs[m.args.term], m.args.prevLogIndex + 1 + x;
    assert m.args.entries[x] == lead[k];
    IndexedLog(w.logs, lead, m.args.term);
    SamePrefix(w.logs, w.peers[a].log, lead, w.peers[a].currentTerm, m.args.term, k);
    assert w.peers[a].log[k] == w.peers[a].log[..k + 1][k];
  }

  // ---------- Section 5.4: Leader Completeness and State Machine Safety ----------

  /** Once an entry is committed in a term, it is in the log of every leader of a later term, from election on. */
  lemma CommittedEntriesStay(ws: seq<World>, n: nat, i: nat, j: nat, c: Commit, a: nat)
    requires Run(ws, n) && i <= j < |ws| && c in ws[i].commits && a < |ws[j].peers|
    requires ws[j].peers[a].role.Leader? && ws[j].peers[a].currentTerm >= c.term
    ensures c.term in ws[i].logs && 1 <= c.index < |ws[i].logs[c.term]|
    ensures ws[i].logs[c.term][..c.index + 1] <= ws[j].peers[a].log
  {
    RunInv(ws, n, i);
    RunInv(ws, n, j);
    RunLater(ws, n, i, j);
    assert CommitOk(ws[i], c) && CommitOk(ws[j], c) && PeerLogOk(ws[j], a);
    CommitInLog(ws[j], c, ws[j].peers[a].currentTerm);
    assert ws[i].logs[c.term][..c.index + 1] == ws[j].logs[c.term][..c.index + 1];
  }

  /** A leader records as committed exactly what a majority held in its own term. */
  lemma CommitNeedsMajority(ws: seq<World>, n: nat, i: nat, c: Commit)
    requires Run(ws, n) && i < |ws| && c in ws[i].commits
    ensures c.term in ws[i].logs && c.index < |ws[i].logs[c.term]| && ws[i].logs[c.term][c.index].term == c.term
    ensures exists q :: Majority(q, n) && HeldByAll(ws[i], q, c.term, c.index)
  {
    RunInv(ws, n, i);
    assert CommitOk(ws[i], c);
  }

  lemma TwoCommits(w: World, c: Commit, d: Commit, k: nat)
    requires Inv(w) && c in w.commits && d in w.commits && k <= c.index && k <= d.index
    ensures c.term in w.logs && d.term in w.logs && k < |w.logs[c.term]| && k < |w.logs[d.term]|
    ensures w.logs[c.term][k] == w.logs[d.term][k]
  {
    assert CommitOk(w, c) && CommitOk(w, d);
    if c.term <= d.term {
      CommitInLog(w, c, d.term);
      assert w.logs[c.term][..c.index + 1][k] == w.logs[d.term][k];
    } else {
      CommitInLog(w, d, c.term);
      assert w.logs[d.term][..d.index + 1][k] == w.logs[c.term][k];
    }
  }

  /** Within one state, what two peers have committed up to a common index is the same. */
  lemma CommittedPrefixesAgree(w: World, a: nat, b: nat, k: nat)
    requires Inv(w) && a < |w.peers| && b < |w.peers|
    requires 1 <= k <= w.peers[a].commitIndex && k <= w.peers[b].commitIndex
    ensures k < |w.peers[a].log| && k < |w.peers[b].log| && w.peers[a].log[k] == w.peers[b].log[k]
  {
    var p, q := w.peers[a], w.peers[b];
    var c :| c in w.commits && CoveredBy(w, p.log, p.commitIndex, p.currentTerm, c);
    var d :| d in w.commits && CoveredBy(w, q.log, q.commitIndex, q.currentTerm, d);
    TwoCommits(w, c, d, k);
    assert p.log[k] == p.log[..p.commitIndex + 1][k] == w.logs[c.term][k];
    assert q.log[k] == q.log[..q.commitIndex + 1][k] == w.logs[d.term][k];
  }

  /** No two peers ever deliver different commands for one index, at whatever moments, as leaders or followers. */
  lemma StateMachineSafety(ws: seq<World>, n: nat, i: nat, j: nat, a: nat, b: nat, x: nat, y: nat)
    requires Run(ws, n) && i <= j < |ws| && a < n && b < n
    requires |ws[i].applied| == n && |ws[j].applied| == n && x < |ws[i].applied[a]| && y < |ws[j].applied[b]|
    requires ws[i].applied[a][x].commandIndex == ws[j].applied[b][y].commandIndex
    ensures ws[i].applied[a][x] == ws[j].applied[b][y]
  {
    RunInv(ws, n, j);
    RunLater(ws, n, i, j);
    var v := ws[j];
    assert v.applied[a][x] == ws[i].applied[a][x];
    assert DeliveredOk(v.peers[a], v.applied[a]) && DeliveredOk(v.peers[b], v.applied[b]);
    CommittedPrefixesAgree(v, a, b, v.applied[b][y].commandIndex);
  }

  /** The indices delivered at a peer are exactly 1 .. commitIndex, and nothing is delivered beyond. */
  lemma DeliveryHasNoGap(ws: seq<World>, n: nat, i: nat, a: nat, k: nat)
    requires Run(ws, n) && i < |ws| && a < n && |ws[i].peers| == |ws[i].applied| == n
    ensures ws[i].peers[a].lastApplied <= ws[i].peers[a].commitIndex
    ensures 1 <= k <= ws[i].peers[a].commitIndex <==>
      exists x :: 0 <= x < |ws[i].applied[a]| && ws[i].applied[a][x].commandIndex == k
  {
    RunInv(ws, n, i);
    var p, sent := ws[i].peers[a], ws[i].applied[a];
    assert DeliveredOk(p, sent);
    if 1 <= k <= p.commitIndex {
      assert ApplyMsg(true, p.log[k].command, k) in sent;
    }
  }

  /** Every delivery of an index but the first index comes after one of the index before. */
  ghost predicate InOrder(sent: seq<ApplyMsg>) {
    forall x {:trigger sent[x]} :: 0 <= x < |sent| && sent[x].commandIndex > 1 ==>
        DeliveredBefore(sent, x, sent[x].commandIndex - 1)
  }

  ghost predicate DeliveredBefore(sent: seq<ApplyMsg>, x: nat, k: nat)
    requires x <= |sent|
  {
    exists y {:trigger sent[y]} :: 0 <= y < x && sent[y].commandIndex == k
  }

  lemma InOrderMore(sent: seq<ApplyMsg>, log: seq<LogEntry>, from: nat, to: nat)
    requires InOrder(sent) && Indexed(log) && (from >= 1 ==> DeliveredBefore(sent, |sent|, from))
    ensures InOrder(sent + Deliveries(log, from, to))
  {
    var more := Deliveries(log, from, to);
    var all := sent + more;
    forall x | 0 <= x < |all| && all[x].commandIndex > 1 ensures DeliveredBefore(all, x, all[x].commandIndex - 1) {
      if x < |sent| {
        var y :| 0 <= y < x && sent[y].commandIndex == sent[x].commandIndex - 1;
        assert all[y] == sent[y];
      } else if x == |sent| {
        var y :| 0 <= y < |sent| && sent[y].commandIndex == from;
        assert all[y] == sent[y];
      } else {
        assert all[x - 1] == more[x - 1 - |sent|];
      }
    }
  }

  ghost predicate AllInOrder(w: World) {
    forall a {:trigger w.applied[a]} :: 0 <= a < |w.applied| ==> InOrder(w.applied[a])
  }

  /** What a follower delivers follows what it has delivered before. */
  lemma AppendFollows(w: World, m: Append)
    requires Inv(w) && Enabled(w, DeliverAppend(m))
    ensures var p := w.peers[m.to];
      && Indexed(OnAppendEntries(p, m.args).peer.log)
      && (p.commitIndex >= 1 ==> DeliveredBefore(w.applied[m.to], |w.applied[m.to]|, p.commitIndex))
  {
    var p, v := w.peers[m.to], AfterAppend(w, m);
    StepKeepsInv(w, DeliverAppend(m));
    assert DeliveredOk(p, w.applied[m.to]) && PeerLogOk(v, m.to);
    IndexedLog(v.logs, v.peers[m.to].log, v.peers[m.to].currentTerm);
    if p.commitIndex >= 1 { assert ApplyMsg(true, p.log[p.commitIndex].command, p.commitIndex) in w.applied[m.to]; }
  }

  lemma AppendInOrder(w: World, m: Append)
    requires Inv(w) && AllInOrder(w) && Enabled(w, DeliverAppend(m))
    ensures AllInOrder(AfterAppend(w, m))
  {
    AppendFollows(w, m);
    var p, out := w.peers[m.to], OnAppendEntries(w.peers[m.to], m.args);
    if out.sent != [] { InOrderMore(w.applied[m.to], out.peer.log, p.commitIndex, out.peer.commitIndex); }
    SentInOrder(w, AfterAppend(w, m), m.to, out.sent);
  }

  lemma SentInOrder(w: World, v: World, i: nat, sent: seq<ApplyMsg>)
    requires AllInOrder(w) && i < |w.applied| && v.applied == w.applied[i := w.applied[i] + sent]
    requires sent != [] ==> InOrder(w.applied[i] + sent)
    ensures AllInOrder(v)
  {
    if sent == [] { assert w.applied[i] + sent == w.applied[i]; }
  }

  lemma AckInOrder(w: World, a: Ack)
    requires Inv(w) && AllInOrder(w) && Enabled(w, DeliverAck(a))
    ensures AllInOrder(AfterAck(w, a))
  {
    var p := w.peers[a.leader];
    var out := OnAppendReply(p, a.sentTerm, a.reply);
    assert DeliveredOk(p, w.applied[a.leader]) && PeerLogOk(w, a.leader);
    IndexedLog(w.logs, p.log, p.currentTerm);
    if p.lastApplied >= 1 { assert ApplyMsg(true, p.log[p.lastApplied].command, p.lastApplied) in w.applied[a.leader]; }
    if out.sent != [] { InOrderMore(w.applied[a.leader], p.log, p.lastApplied, out.peer.commitIndex); }
    SentInOrder(w, AfterAck(w, a), a.leader, out.sent);
  }

  lemma NothingSent(w: World, step: Step)
    requires Shape(w) && Enabled(w, step) && !step.DeliverAppend? && !step.DeliverAck?
    ensures After(w, step).applied == w.applied
  {}

  lemma NextInOrder(w: World, v: World)
    requires Inv(w) && AllInOrder(w) && Next(w, v)
    ensures AllInOrder(v)
  {
    var step :| Enabled(w, step) && v == After(w, step);
    match step
    case DeliverAppend(m) => AppendInOrder(w, m);
    case DeliverAck(a) => AckInOrder(w, a);
    case _ => NothingSent(w, step);
  }

  lemma InOrderNext(ws: seq<World>, n: nat, i: nat)
    requires Run(ws, n) && i + 1 < |ws| && AllInOrder(ws[i])
    ensures AllInOrder(ws[i + 1])
  {
    NextOf(ws, n, i);
    NextInOrder(ws[i], ws[i + 1]);
  }

  lemma {:induction false} RunInOrder(ws: seq<World>, n: nat, i: nat)
    requires Run(ws, n) && i < |ws|
    ensures AllInOrder(ws[i])
  {
    if i > 0 {
      RunInOrder(ws, n, i - 1);
      InOrderNext(ws, n, i - 1);
    }
  }

  /** A peer delivers in order: before any delivery of an index, redelivery by a new leader included, it has
      delivered the index before. */
  lemma DeliveryInOrder(ws: seq<World>, n: nat, i: nat, a: nat, x: nat) returns (y: nat)
    requires Run(ws, n) && i < |ws| && a < |ws[i].applied| && x < |ws[i].applied[a]|
    requires ws[i].applied[a][x].commandIndex > 1
    ensures y < x && ws[i].applied[a][y].commandIndex == ws[i].applied[a][x].commandIndex - 1
  {
    RunInOrder(ws, n, i);
    var sent := ws[i].applied[a];
    y :| 0 <= y < x && sent[y].commandIndex == sent[x].commandIndex - 1;
  }

  /** Commit indices never go down, and no peer ever changes its log at or below its commit index. */
  lemma CommittedPrefixFixed(ws: seq<World>, n: nat, i: nat, j: nat, a: nat)
    requires Run(ws, n) && i <= j < |ws| && a < n && |ws[i].peers| == |ws[j].peers| == n
    ensures ws[i].peers[a].commitIndex <= ws[j].peers[a].commitIndex
    ensures CommitSafe(ws[i].peers[a], ws[j].peers[a])
  {
    RunLater(ws, n, i, j);
    assert PeerLater(ws[i].peers[a], ws[j].peers[a]);
  }

  // ---------- Honest acknowledgements ----------

  /** At moment `s`, in the term of `h`, the peer had the leader's log up to the acknowledged index. */
  ghost predicate WasHeld(w: World, h: Held) {
    && h.peer < |w.peers| && h.term in w.logs && h.index < |w.logs[h.term]|
    && w.peers[h.peer].currentTerm == h.term && w.logs[h.term][..h.index + 1] <= w.peers[h.peer].log
  }

  lemma AppendHeld(w: World, m: Append, h: Held)
    requires Inv(w) && Enabled(w, DeliverAppend(m)) && h in AfterAppend(w, m).held && h !in w.held
    ensures WasHeld(AfterAppend(w, m), h)
  {
    StepKeepsInv(w, DeliverAppend(m));
    assert HeldOk(AfterAppend(w, m), h);
    var out := DeliverAppendForm(w, m);
  }

  lemma AckHeld(w: World, a: Ack, h: Held)
    requires Inv(w) && Enabled(w, DeliverAck(a)) && h in AfterAck(w, a).held && h !in w.held
    ensures WasHeld(AfterAck(w, a), h)
  {
    StepKeepsInv(w, DeliverAck(a));
    assert HeldOk(AfterAck(w, a), h);
    var out := DeliverAckForm(w, a);
    assert PeerLogOk(w, a.leader);
  }

  lemma NewlyHeld(w: World, step: Step, h: Held)
    requires Inv(w) && Enabled(w, step) && h in After(w, step).held && h !in w.held
    ensures WasHeld(After(w, step), h)
  {
    match step
    case DeliverAppend(m) => AppendHeld(w, m, h);
    case DeliverAck(a) => AckHeld(w, a, h);
    case _ =>
  }

  lemma {:induction false} HeldOnce(ws: seq<World>, n: nat, j: nat, h: Held) returns (s: nat)
    requires Run(ws, n) && j < |ws| && h in ws[j].held
    ensures s <= j && WasHeld(ws[s], h)
  {
    assert j > 0;
    if h in ws[j - 1].held {
      s := HeldOnce(ws, n, j - 1, h);
    } else {
      NextOf(ws, n, j - 1);
      var step :| Enabled(ws[j - 1], step) && ws[j] == After(ws[j - 1], step);
      NewlyHeld(ws[j - 1], step, h);
      s := j;
    }
  }

  /** A successful reply that is no heartbeat reports, although it gives the follower's whole length, only
      entries the follower really shared with the leader of that term. */
  lemma HonestAcknowledgement(ws: seq<World>, n: nat, j: nat, a: Ack) returns (s: nat)
    requires Run(ws, n) && j < |ws| && a in ws[j].acks && a.reply.success && !a.reply.isHeartbeat
    ensures s <= j && a.reply.followerId < |ws[s].peers| && a.sentTerm in ws[j].logs
    ensures a.reply.lastLogIndex < |ws[j].logs[a.sentTerm]|
    ensures ws[s].peers[a.reply.followerId].currentTerm == a.sentTerm
    ensures ws[j].logs[a.sentTerm][..a.reply.lastLogIndex + 1] <= ws[s].peers[a.reply.followerId].log
  {
    RunInv(ws, n, j);
    assert AckOk(ws[j], a);
    var h := Held(a.sentTerm, a.reply.followerId, a.reply.lastLogIndex);
    s := HeldOnce(ws, n, j, h);
    RunLater(ws, n, s, j);
    assert ws[s].logs[h.term][..h.index + 1] == ws[j].logs[h.term][..h.index + 1];
  }

  /** `matchIndex` is never overstated: the follower had all of the leader's log up to there, in the leader's term. */
  lemma MatchIndexIsSound(ws: seq<World>, n: nat, j: nat, i: nat, f: nat) returns (s: nat)
    requires Run(ws, n) && j < |ws| && i < n && f < n && f != i && |ws[j].peers| == n
      && |ws[j].peers[i].matchIndex| == n
    requires ws[j].peers[i].role.Leader? && ws[j].peers[i].matchIndex[f] > 0
    ensures s <= j && |ws[s].peers| == n && ws[j].peers[i].matchIndex[f] < |ws[j].peers[i].log|
    ensures ws[s].peers[f].currentTerm == ws[j].peers[i].currentTerm
    ensures ws[j].peers[i].log[..ws[j].peers[i].matchIndex[f] + 1] <= ws[s].peers[f].log
  {
    RunInv(ws, n, j);
    var p := ws[j].peers[i];
    assert LeaderViewOk(ws[j], i, f) && PeerLogOk(ws[j], i);
    var h := Held(p.currentTerm, f, p.matchIndex[f]);
    s := HeldOnce(ws, n, j, h);
    RunInv(ws, n, s);
    RunLater(ws, n, s, j);
    assert ws[s].logs[h.term][..h.index + 1] == ws[j].logs[h.term][..h.index + 1];
  }

  /** Every request in flight carries a commit index it can vouch for, so that the follower's minimum
      with its own last index never commits an entry the request has not matched. */
  lemma RequestsVouchForCommit(ws: seq<World>, n: nat, i: nat, m: Append)
    requires Run(ws, n) && i < |ws| && m in ws[i].appends
    ensures m.args.leaderCommit <= m.args.prevLogIndex + |m.args.entries|
    ensures m.args.term in ws[i].logs && Covered(ws[i], ws[i].logs[m.args.term], m.args.leaderCommit, m.args.term)
  {
    RunInv(ws, n, i);
    assert AppendOk(ws[i], m);
  }

  // ---------- The handlers stay within bounds ----------

  /** In every run, a peer that gets a request meets what the handler needs to index its log. */
  lemma RequestsAreHandled(ws: seq<World>, n: nat, i: nat, m: Append)
    requires Run(ws, n) && i < |ws| && m in ws[i].appends
    ensures m.to < |ws[i].peers| && Indexed(ws[i].peers[m.to].log) && WellFormed(m.args) && m.args.prevLogIndex >= 0
  {
    RunInv(ws, n, i);
    assert AppendOk(ws[i], m) && PeerLogOk(ws[i], m.to);
    IndexedLog(ws[i].logs, ws[i].peers[m.to].log, ws[i].peers[m.to].currentTerm);
  }

  /** A leader that acts on an acknowledgement indexes its log and its followers in bounds. */
  lemma RepliesAreHandled(ws: seq<World>, n: nat, i: nat, a: Ack, f: nat)
    requires Run(ws, n) && i < |ws| && a in ws[i].acks && a.leader < |ws[i].peers|
    requires AppendReplyActs(ws[i].peers[a.leader], a.sentTerm) && f < n && f != a.leader
    ensures var p := ws[i].peers[a.leader];
      && a.reply.followerId < n && p.commitIndex < |p.log| && |p.nextIndex| == n && p.nextIndex[f] <= |p.log|
      && (a.reply.success && !a.reply.isHeartbeat ==> a.reply.lastLogIndex < |p.log|)
  {
    RunInv(ws, n, i);
    var w := ws[i];
    assert AckOk(w, a) && PeerLogOk(w, a.leader) && LeaderViewOk(w, a.leader, f)
      && DeliveredOk(w.peers[a.leader], w.applied[a.leader]);
  }

  /** When a leader replicates, it reads its log in bounds exactly for the followers whose next index is at least 1. */
  lemma ReplicateInBoundsIff(ws: seq<World>, n: nat, i: nat, leader: nat, f: nat)
    requires Run(ws, n) && i < |ws| && leader < |ws[i].peers| && ws[i].peers[leader].role.Leader?
    requires f < n && f != leader
    ensures var p := ws[i].peers[leader];
      |p.nextIndex| == n && (0 <= PrevIndex(p, p.nextIndex[f]) < |p.log| <==> p.nextIndex[f] >= 1)
  {
    RunInv(ws, n, i);
    assert PeerLogOk(ws[i], leader) && LeaderViewOk(ws[i], leader, f);
  }
}
