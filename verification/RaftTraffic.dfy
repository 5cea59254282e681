/** Messages: what requests and replies in flight, and the leader's view of its followers, vouch for. */
module RaftTraffic {
  import opened RaftTypes
  import opened RaftHandlers
  import opened RaftWorld
  import opened RaftInvariant
  import opened RaftElections
  import opened RaftReplication

  // ---------- Steps that touch no log, no append message and no leader's view ----------

  ghost predicate SameView(p: Peer, q: Peer) {
    && q.log == p.log && q.commitIndex == p.commitIndex && q.lastApplied == p.lastApplied
      && p.currentTerm <= q.currentTerm
    && (q.role.Leader? ==>
          p.role.Leader? && q.currentTerm == p.currentTerm && q.nextIndex == p.nextIndex
            && q.matchIndex == p.matchIndex)
  }

  ghost predicate Quiet(w: World, v: World) {
    && |v.peers| == |w.peers| && v.appends == w.appends && v.acks == w.acks && v.applied == w.applied
    && v.held == w.held && v.commits == w.commits && v.logs == w.logs && v.elections == w.elections
    && (forall i :: 0 <= i < |w.peers| ==> SameView(w.peers[i], v.peers[i]))
  }

  lemma QuietSteps(w: World, step: Step)
    requires Shape(w) && Enabled(w, step)
    requires step.Timeout? || step.DeliverVoteRequest? || step.LoseVoteCall?
      || (step.DeliverVoteReply? && !Wins(w, step.key))
    ensures Quiet(w, After(w, step))
  {}

  lemma CaughtLater(w: World, v: World, f: nat, term: nat)
    requires f < |w.peers| && f < |v.peers| && term in w.logs && term in w.elections && term in v.logs
      && term in v.elections
    requires Caught(w, f, term)
    requires v.elections[term] == w.elections[term] && w.logs[term] <= v.logs[term]
    requires w.peers[f].currentTerm <= v.peers[f].currentTerm
    requires v.peers[f].currentTerm == term ==> v.peers[f].log == w.peers[f].log
    ensures Caught(v, f, term)
  {}

  lemma QuietKeepsTraffic(w: World, v: World)
    requires Shape(w) && Shape(v) && Traffic(w) && Quiet(w, v)
    ensures Traffic(v)
  {
    forall m | m in v.appends ensures AppendOk(v, m) { assert AppendOk(w, m); }
    forall a | a in v.acks ensures AckOk(v, a) { assert AckOk(w, a); }
    forall i, f | 0 <= i < |v.peers| && 0 <= f < |v.peers| && f != i && v.peers[i].role.Leader?
      ensures LeaderViewOk(v, i, f)
    {
      assert SameView(w.peers[i], v.peers[i]);
      assert LeaderViewOk(w, i, f);
    }
  }

  // ---------- Elections and client commands ----------

  /** Everything a message can rely on is kept: leaders' logs only grow, past elections stay, logs of
      followers change only where `Caught` does not look. */
  ghost predicate KeepsPast(w: World, v: World) {
    && |v.peers| == |w.peers| && Extends(w.logs, v.logs) && w.held <= v.held
    && (forall t :: t in w.elections ==> t in v.elections && v.elections[t] == w.elections[t])
    && (forall f, t ::
          0 <= f < |w.peers| && t in w.logs && t in w.elections && Caught(w, f, t) && f != w.elections[t].leader ==>
            t in v.logs && t in v.elections && Caught(v, f, t))
    && (forall t :: t in w.logs && t in v.logs && t in w.elections && t in v.elections && Idle(v, t) ==> Idle(w, t))
  }

  lemma AppendOkKept(w: World, v: World, m: Append)
    requires Shape(w) && Shape(v) && m in w.appends && m in v.appends && AppendOk(w, m) && KeepsPast(w, v)
    ensures AppendOk(v, m)
  {}

  lemma AckOkKept(w: World, v: World, a: Ack)
    requires Shape(w) && Shape(v) && a in w.acks && a in v.acks && AckOk(w, a) && KeepsPast(w, v)
    ensures AckOk(v, a)
  {}

  lemma ViewKept(w: World, v: World, i: nat, f: nat)
    requires Shape(w) && Shape(v) && KeepsPast(w, v) && i < |w.peers| && f < |w.peers| && f != i
    requires LeaderViewOk(w, i, f) && w.elections[w.peers[i].currentTerm].leader == i
    requires w.peers[i].currentTerm == v.peers[i].currentTerm && |w.peers[i].log| <= |v.peers[i].log|
    requires w.peers[i].nextIndex == v.peers[i].nextIndex && w.peers[i].matchIndex == v.peers[i].matchIndex
    ensures LeaderViewOk(v, i, f)
  {}

  lemma WonKeepsPast(w: World, v: World, c: nat, voters: set<nat>)
    requires Shape(w) && Winners(w) && WonStep(w, v, c, voters)
    ensures KeepsPast(w, v)
  {}

  lemma WonKeepsTraffic(w: World, v: World, c: nat, voters: set<nat>)
    requires Shape(w) && Shape(v) && Winners(w) && Traffic(w) && WonStep(w, v, c, voters)
    ensures Traffic(v)
  {
    WonKeepsPast(w, v, c, voters);
    forall m | m in v.appends ensures AppendOk(v, m) { AppendOkKept(w, v, m); }
    forall a | a in v.acks ensures AckOk(v, a) { AckOkKept(w, v, a); }
    forall i, f | 0 <= i < |v.peers| && 0 <= f < |v.peers| && f != i && v.peers[i].role.Leader?
      ensures LeaderViewOk(v, i, f)
    {
      if i != c { ViewKept(w, v, i, f); }
    }
  }

  lemma AppendedKeepsPast(w: World, v: World, i: nat, e: LogEntry)
    requires Shape(w) && Winners(w) && LogsOk(w) && Appended(w, v, i, e)
    ensures KeepsPast(w, v)
  {
    var term := w.peers[i].currentTerm;
    assert PeerLogOk(w, i) && LeaderLogOk(w, term);
    forall f, t | 0 <= f < |w.peers| && t in w.logs && t in w.elections && Caught(w, f, t) && f != w.elections[t].leader
      ensures t in v.logs && t in v.elections && Caught(v, f, t)
    {
      CaughtLater(w, v, f, t);
    }
  }

  lemma AppendedKeepsTraffic(w: World, v: World, i: nat, e: LogEntry)
    requires Shape(w) && Shape(v) && Winners(w) && LogsOk(w) && Traffic(w) && Appended(w, v, i, e)
    ensures Traffic(v)
  {
    AppendedKeepsPast(w, v, i, e);
    forall m | m in v.appends ensures AppendOk(v, m) { AppendOkKept(w, v, m); }
    forall a | a in v.acks ensures AckOk(v, a) { AckOkKept(w, v, a); }
    forall j, f | 0 <= j < |v.peers| && 0 <= f < |v.peers| && f != j && v.peers[j].role.Leader?
      ensures LeaderViewOk(v, j, f)
    {
      ViewKept(w, v, j, f);
    }
  }

  // ---------- Replication ----------

  /** What `replicate` sends is part of the leader's log and carries no commit index beyond its end. */
  lemma ReplicationOk(w: World, v: World, i: nat, f: nat)
    requires Shape(w) && Winners(w) && LogsOk(w) && i < |w.peers| && f < |w.peers| && f != i
    requires w.peers[i].role.Leader? && LeaderViewOk(w, i, f) && w.peers[i].commitIndex < |w.peers[i].log|
    requires Shape(v) && v == w.(appends := v.appends) && w.peers[i].nextIndex[f] >= 1
      && Append(f, Replication(w.peers[i], w.peers[i].nextIndex[f])) in v.appends
    ensures AppendOk(v, Append(f, Replication(w.peers[i], w.peers[i].nextIndex[f])))
  {
    var p := w.peers[i];
    assert PeerLogOk(w, i) && LeaderLogOk(w, p.currentTerm);
    var a := Replication(p, p.nextIndex[f]);
    if |p.log| - 1 >= p.nextIndex[f] {
      assert p.log[p.nextIndex[f]..] == p.log[p.nextIndex[f]..|p.log|];
    }
  }

  lemma ReplicateKeepsTraffic(w: World, i: nat)
    requires Shape(w) && Winners(w) && LogsOk(w) && Traffic(w) && Enabled(w, Replicate(i))
      && Shape(AfterReplicate(w, i))
    requires w.peers[i].commitIndex < |w.peers[i].log|
    ensures Traffic(AfterReplicate(w, i))
  {
    var v := AfterReplicate(w, i);
    forall m | m in v.appends ensures AppendOk(v, m) {
      if m in w.appends {
        assert AppendOk(w, m);
      } else {
        assert LeaderViewOk(w, i, m.to);
        ReplicationOk(w, v, i, m.to);
      }
    }
    forall a | a in v.acks ensures AckOk(v, a) { assert AckOk(w, a); }
    forall j, f | 0 <= j < |v.peers| && 0 <= f < |v.peers| && f != j && v.peers[j].role.Leader?
      ensures LeaderViewOk(v, j, f)
    {
      assert LeaderViewOk(w, j, f);
    }
  }

  // ---------- Append requests ----------

  /** A log with an entry of the newest term is a prefix of the log of that term's leader. */
  lemma NewestTerm(w: World, log: seq<LogEntry>, k: nat, t: nat)
    requires Shape(w) && LogsOk(w) && LogOk(w.logs, log, t) && k < |log| && log[k].term == t && t >= 1
    ensures t in w.logs && log <= w.logs[t]
  {
    var last := |log| - 1;
    if 1 <= last { assert EntryOk(w.logs, log, last); }
    assert log[last].term in w.logs ==> LeaderLogOk(w, log[last].term);
    Sorted(w.logs, log, t, k, last);
    assert log[..last + 1] == log;
  }

  /** A follower that acknowledges entries, although it reports its whole log, reports only entries its
      leader has: its log is then a prefix of the leader's. */
  lemma HonestLog(w: World, v: World, m: Append, out: AppendOutcome)
    requires Shape(w) && LogsOk(w) && AppendStep(w, v, m, out) && out.reply.success && !out.reply.isHeartbeat
    ensures out.peer.log <= w.logs[m.args.term]
    ensures |w.elections[m.args.term].base| <= |out.peer.log|
  {
    var t, sent := m.args.term, Sent(w, m);
    AppendForm(w, v, m, out);
    ReceiverLog(w, v, m, out);
    assert LeaderLogOk(w, t);
    if |sent| > |w.elections[t].base| {
      assert out.peer.log[|sent| - 1] == sent[|sent| - 1];
      NewestTerm(w, out.peer.log, |sent| - 1, t);
    }
  }

  lemma CaughtAfterAppend(w: World, v: World, m: Append, out: AppendOutcome)
    requires Shape(w) && LogsOk(w) && AppendStep(w, v, m, out) && Caught(w, m.to, m.args.term)
    ensures Caught(v, m.to, m.args.term)
  {
    AppendForm(w, v, m, out);
  }

  lemma AppendStepKeepsPast(w: World, v: World, m: Append, out: AppendOutcome)
    requires Shape(w) && LogsOk(w) && AppendStep(w, v, m, out)
    ensures KeepsPast(w, v)
  {
    forall f, t | 0 <= f < |w.peers| && t in w.logs && t in w.elections && Caught(w, f, t) ensures Caught(v, f, t) {
      if f == m.to && t == m.args.term {
        CaughtAfterAppend(w, v, m, out);
      } else {
        CaughtLater(w, v, f, t);
      }
    }
  }

  lemma NewAckOk(w: World, v: World, m: Append, out: AppendOutcome)
    requires Shape(w) && Shape(v) && LogsOk(w) && AppendStep(w, v, m, out)
    ensures Ack(m.args.term, m.args.leaderId, out.reply) in v.acks
    ensures AckOk(v, Ack(m.args.term, m.args.leaderId, out.reply))
  {
    var t := m.args.term;
    assert PeerLogOk(w, m.to) && LeaderLogOk(w, t);
    if out.reply.success && !out.reply.isHeartbeat {
      HonestLog(w, v, m, out);
    }
  }

  lemma AppendStepKeepsTraffic(w: World, v: World, m: Append, out: AppendOutcome)
    requires Shape(w) && Shape(v) && Winners(w) && LogsOk(w) && Traffic(w) && AppendStep(w, v, m, out)
    ensures Traffic(v)
  {
    AppendStepKeepsPast(w, v, m, out);
    forall n | n in v.appends ensures AppendOk(v, n) { AppendOkKept(w, v, n); }
    NewAckOk(w, v, m, out);
    forall a | a in v.acks ensures AckOk(v, a) {
      if a in w.acks { AckOkKept(w, v, a); }
    }
    forall i, f | 0 <= i < |v.peers| && 0 <= f < |v.peers| && f != i && v.peers[i].role.Leader?
      ensures LeaderViewOk(v, i, f)
    {
      ViewKept(w, v, i, f);
    }
  }

  lemma StaleKeepsTraffic(w: World, v: World, m: Append, reply: AppendEntriesReply)
    requires Shape(w) && Shape(v) && Traffic(w) && StaleStep(w, v, m, reply)
    ensures Traffic(v)
  {
    forall n | n in v.appends ensures AppendOk(v, n) { assert AppendOk(w, n); }
    forall a | a in v.acks ensures AckOk(v, a) {
      if a in w.acks { assert AckOk(w, a); }
    }
    forall i, f | 0 <= i < |v.peers| && 0 <= f < |v.peers| && f != i && v.peers[i].role.Leader?
      ensures LeaderViewOk(v, i, f)
    {
      assert LeaderViewOk(w, i, f);
    }
  }

  // ---------- Replies to append requests ----------

  /** A failed reply: the next index goes down by one. */
  ghost predicate Nacked(w: World, v: World, a: Ack)
    requires Shape(w) && a in w.acks
  {
    var p := w.peers[a.leader];
    && AppendReplyActs(p, a.sentTerm) && !a.reply.success && a.reply.term <= p.currentTerm
    && v == w.(peers := w.peers[a.leader :=
                 p.(nextIndex := p.nextIndex[a.reply.followerId := p.nextIndex[a.reply.followerId] - 1])])
  }

  /** A successful reply that is no heartbeat: the follower's position is recorded and `commitAt` runs. */
  ghost predicate Acknowledged(w: World, v: World, a: Ack, out: CommitOutcome)
    requires Shape(w) && a in w.acks
  {
    var p := w.peers[a.leader];
    && AppendReplyActs(p, a.sentTerm) && a.reply.success && !a.reply.isHeartbeat && a.reply.term <= p.currentTerm
    && out == CommitAt(Acknowledge(p, a.reply.followerId, a.reply.lastLogIndex), a.reply.lastLogIndex)
    && var committed := out.peer.commitIndex != p.commitIndex;
       v == w.(peers := w.peers[a.leader := out.peer],
               applied := w.applied[a.leader := w.applied[a.leader] + out.sent],
               held := if committed then w.held + {Held(p.currentTerm, a.leader, out.peer.commitIndex)} else w.held,
               commits := if committed then w.commits + {Commit(p.currentTerm, out.peer.commitIndex)} else w.commits)
  }

  lemma DeliverAckForm(w: World, a: Ack) returns (out: CommitOutcome)
    requires Shape(w) && a in w.acks
    ensures var v := AfterAck(w, a); Quiet(w, v) || Nacked(w, v, a) || Acknowledged(w, v, a, out)
  {
    var p := w.peers[a.leader];
    out := OnAppendReply(p, a.sentTerm, a.reply);
    assert w.applied[a.leader] + [] == w.applied[a.leader];
  }

  /** Leader `i` takes down where follower `f` stands. */
  ghost predicate ViewStep(w: World, v: World, i: nat, f: nat, next: int, matched: nat)
    requires Shape(w)
  {
    && i < |w.peers| && f < |w.peers| && |v.peers| == |w.peers|
    && (forall j :: 0 <= j < |w.peers| && j != i ==> v.peers[j] == w.peers[j])
    && (var p, q := w.peers[i], v.peers[i];
        q == p.(nextIndex := p.nextIndex[f := next], matchIndex := p.matchIndex[f := matched],
                commitIndex := q.commitIndex, lastApplied := q.lastApplied))
    && v.appends == w.appends && v.acks == w.acks && v.logs == w.logs && v.elections == w.elections && w.held <= v.held
  }

  lemma ViewStepKeepsTraffic(w: World, v: World, i: nat, f: nat, next: int, matched: nat)
    requires Shape(w) && Shape(v) && Traffic(w) && ViewStep(w, v, i, f, next, matched)
    requires f != i && w.peers[i].role.Leader? && LeaderViewOk(v, i, f)
    ensures Traffic(v)
  {
    forall m | m in v.appends ensures AppendOk(v, m) { assert AppendOk(w, m); }
    forall b | b in v.acks ensures AckOk(v, b) { assert AckOk(w, b); }
    forall j, g | 0 <= j < |v.peers| && 0 <= g < |v.peers| && g != j && v.peers[j].role.Leader?
      ensures LeaderViewOk(v, j, g)
    {
      assert LeaderViewOk(w, j, g);
    }
  }

  lemma NackedView(w: World, v: World, a: Ack)
    requires Shape(w) && Shape(v) && Winners(w) && LogsOk(w) && Traffic(w) && a in w.acks && Nacked(w, v, a)
    ensures var p, f := w.peers[a.leader], a.reply.followerId;
      ViewStep(w, v, a.leader, f, v.peers[a.leader].nextIndex[f], p.matchIndex[f]) && LeaderViewOk(v, a.leader, f)
  {
    assert AckOk(w, a) && LeaderViewOk(w, a.leader, a.reply.followerId);
  }

  lemma NackedKeepsTraffic(w: World, v: World, a: Ack)
    requires Shape(w) && Shape(v) && Winners(w) && LogsOk(w) && Traffic(w) && a in w.acks && Nacked(w, v, a)
    ensures Traffic(v)
  {
    NackedView(w, v, a);
    var f := a.reply.followerId;
    ViewStepKeepsTraffic(w, v, a.leader, f, v.peers[a.leader].nextIndex[f], w.peers[a.leader].matchIndex[f]);
  }

  lemma CommitAtForm(p: Peer, index: nat)
    ensures var q := CommitAt(p, index).peer; q == p.(commitIndex := q.commitIndex, lastApplied := q.lastApplied)
  {}

  lemma AcknowledgedView(w: World, v: World, a: Ack, out: CommitOutcome)
    requires Shape(w) && Shape(v) && LogsOk(w) && Traffic(w) && a in w.acks && Acknowledged(w, v, a, out)
    ensures var q, f := v.peers[a.leader], a.reply.followerId;
      ViewStep(w, v, a.leader, f, q.nextIndex[f], q.matchIndex[f]) && LeaderViewOk(v, a.leader, f)
  {
    CommitAtForm(Acknowledge(w.peers[a.leader], a.reply.followerId, a.reply.lastLogIndex), a.reply.lastLogIndex);
    assert AckOk(w, a) && PeerLogOk(w, a.leader) && LeaderViewOk(w, a.leader, a.reply.followerId);
  }

  lemma AcknowledgedKeepsTraffic(w: World, v: World, a: Ack, out: CommitOutcome)
    requires Shape(w) && Shape(v) && LogsOk(w) && Traffic(w) && a in w.acks && Acknowledged(w, v, a, out)
    ensures Traffic(v)
  {
    AcknowledgedView(w, v, a, out);
    var q, f := v.peers[a.leader], a.reply.followerId;
    ViewStepKeepsTraffic(w, v, a.leader, f, q.nextIndex[f], q.matchIndex[f]);
  }
}
