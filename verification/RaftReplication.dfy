/** Replication: every log is made of prefixes of leaders' logs, and stays so. */
module RaftReplication {
  import opened RaftTypes
  import opened RaftLog
  import opened RaftHandlers
  import opened RaftWorld
  import opened RaftInvariant
  import opened RaftElections

  // ---------- Logs and leaders' logs ----------

  ghost predicate Extends(logs: Logs, more: Logs) {
    forall t :: t in logs ==> t in more && logs[t] <= more[t]
  }

  lemma LogOkGrows(logs: Logs, more: Logs, log: seq<LogEntry>, bound: nat, higher: nat)
    requires LogOk(logs, log, bound) && Extends(logs, more) && bound <= higher
    ensures LogOk(more, log, higher)
  {
    forall k | 1 <= k < |log| ensures EntryOk(more, log, k) {
      assert EntryOk(logs, log, k);
    }
  }

  lemma PrefixOk(logs: Logs, log: seq<LogEntry>, bound: nat, n: nat)
    requires LogOk(logs, log, bound) && 0 < n <= |log|
    ensures LogOk(logs, log[..n], bound)
  {
    forall k | 1 <= k < n ensures EntryOk(logs, log[..n], k) {
      assert EntryOk(logs, log, k);
      assert log[..n][..k + 1] == log[..k + 1];
    }
  }

  /** Terms never decrease along a log. */
  lemma Sorted(logs: Logs, log: seq<LogEntry>, bound: nat, j: nat, k: nat)
    requires LogOk(logs, log, bound) && j <= k < |log|
    requires log[k].term in logs ==> LogOk(logs, logs[log[k].term], log[k].term)
    ensures log[j].term <= log[k].term
  {
    if 1 <= k {
      assert EntryOk(logs, log, k);
      assert log[j] == log[..k + 1][j] == logs[log[k].term][j];
    }
  }

  /** Equal terms at one position mean equal logs up to there. */
  lemma SamePrefix(logs: Logs, a: seq<LogEntry>, b: seq<LogEntry>, x: nat, y: nat, k: nat)
    requires LogOk(logs, a, x) && LogOk(logs, b, y) && k < |a| && k < |b| && a[k].term == b[k].term
    ensures a[..k + 1] == b[..k + 1]
  {
    if 1 <= k {
      assert EntryOk(logs, a, k) && EntryOk(logs, b, k);
    } else {
      assert a[..1] == [a[0]] && b[..1] == [b[0]];
    }
  }

  /** A message carrying part of a leader's log leaves a follower that passes the consistency check with
      its own log, if that already extends what was sent, and with the leader's log up to there otherwise. */
  lemma MergeForm(logs: Logs, log: seq<LogEntry>, x: nat, lead: seq<LogEntry>, y: nat, prev: nat,
    entries: seq<LogEntry>)
    requires LogOk(logs, log, x) && LogOk(logs, lead, y)
    requires prev < |log| && prev + 1 + |entries| <= |lead| && log[prev].term == lead[prev].term
    requires entries == lead[prev + 1..prev + 1 + |entries|]
    ensures var sent := lead[..prev + 1 + |entries|];
      Merge(log, prev, entries) == if sent <= log then log else sent
  {
    var i := FirstNew(log, prev, entries, 0);
    var sent := lead[..prev + 1 + |entries|];
    SamePrefix(logs, log, lead, x, y, prev);
    if 0 < i {
      assert !New(log, prev, entries, i - 1);
      SamePrefix(logs, log, lead, x, y, prev + i);
    }
    assert log[..prev + 1 + i] == lead[..prev + 1 + i];
    if i < |entries| {
      assert New(log, prev, entries, i);
      assert sent[prev + 1 + i] == entries[i];
      assert lead[..prev + 1 + i] + entries[i..] == sent;
    } else {
      assert sent == log[..prev + 1 + i];
    }
  }

  // ---------- Steps that leave all logs alone ----------

  /** The leader's logs and every peer's log are unchanged, and no peer has become a leader. */
  ghost predicate LogsUntouched(w: World, v: World) {
    && |v.peers| == |w.peers| && v.logs == w.logs && v.elections == w.elections
    && (forall i :: 0 <= i < |w.peers| ==>
      && v.peers[i].log == w.peers[i].log && w.peers[i].currentTerm <= v.peers[i].currentTerm
      && (v.peers[i].role.Leader? ==> w.peers[i].role.Leader? && w.peers[i].currentTerm == v.peers[i].currentTerm))
    && (forall c :: c in v.candLogs && c.term >= 1 ==>
      (c in w.candLogs && v.candLogs[c] == w.candLogs[c]) || LogOk(w.logs, v.candLogs[c], c.term - 1))
  }

  lemma UntouchedKeepsLogs(w: World, v: World)
    requires Shape(w) && Shape(v) && LogsOk(w) && LogsUntouched(w, v)
    ensures LogsOk(v)
  {
    forall term | term in v.logs ensures LeaderLogOk(v, term) { assert LeaderLogOk(w, term); }
    forall i | 0 <= i < |v.peers| ensures PeerLogOk(v, i) { assert PeerLogOk(w, i); }
  }

  lemma UntouchedSteps(w: World, step: Step)
    requires Shape(w) && LogsOk(w) && Enabled(w, step)
    requires !step.Submit? && !step.DeliverAppend? && (step.DeliverVoteReply? ==> !Wins(w, step.key))
    ensures LogsUntouched(w, After(w, step))
  {
    match step
    case Timeout(i) => assert PeerLogOk(w, i);
    case DeliverVoteReply(key) => LostReplyUntouched(w, key);
    case DeliverAck(a) => AckUntouched(w, a);
    case _ =>
  }

  lemma LostReplyUntouched(w: World, key: CallKey)
    requires Shape(w) && LogsOk(w) && Enabled(w, DeliverVoteReply(key)) && !Wins(w, key)
    ensures LogsUntouched(w, AfterVoteReply(w, key))
  {}

  lemma AckUntouched(w: World, a: Ack)
    requires Shape(w) && LogsOk(w) && a in w.acks
    ensures LogsUntouched(w, AfterAck(w, a))
  {}

  // ---------- Steps that touch a log ----------

  /** At most the log of the leader of `term` and that of peer `i` differ between `w` and `v`. */
  ghost predicate LogsGrow(w: World, v: World, term: nat, i: nat) {
    && i < |w.peers| == |v.peers| && term in v.logs && term in v.elections
    && Extends(w.logs, v.logs) && v.candLogs == w.candLogs
    && (forall t :: t in v.logs && t != term ==>
      t in w.logs && v.logs[t] == w.logs[t] && t in w.elections && t in v.elections && v.elections[t] == w.elections[t])
    && (forall j :: 0 <= j < |w.peers| && j != i ==>
      v.peers[j] == w.peers[j] && (v.peers[j].role.Leader? ==> v.peers[j].currentTerm != term))
  }

  lemma GrowthKeepsLogs(w: World, v: World, term: nat, i: nat)
    requires Shape(w) && Shape(v) && LogsOk(w) && LogsGrow(w, v, term, i)
    requires term >= 1 && LeaderLogOk(v, term) && PeerLogOk(v, i)
    ensures LogsOk(v)
  {
    forall t | t in v.logs && t != term ensures LeaderLogOk(v, t) {
      assert LeaderLogOk(w, t);
      LogOkGrows(w.logs, v.logs, w.logs[t], t, t);
    }
    forall j | 0 <= j < |v.peers| && j != i ensures PeerLogOk(v, j) {
      assert PeerLogOk(w, j);
      LogOkGrows(w.logs, v.logs, w.peers[j].log, w.peers[j].currentTerm, w.peers[j].currentTerm);
    }
    forall c | c in v.candLogs && c.term >= 1 ensures LogOk(v.logs, v.candLogs[c], c.term - 1) {
      LogOkGrows(w.logs, v.logs, w.candLogs[c], c.term - 1, c.term - 1);
    }
  }

  lemma WonGrows(w: World, v: World, c: nat, voters: set<nat>)
    requires Shape(w) && Winners(w) && LogsOk(w) && WonStep(w, v, c, voters)
    ensures LogsGrow(w, v, w.peers[c].currentTerm, c)
  {}

  lemma WonKeepsLogs(w: World, v: World, c: nat, voters: set<nat>)
    requires Shape(w) && Shape(v) && c < |w.peers| && CandidateOk(w, c) && w.peers[c].currentTerm >= 1 && LogsOk(w)
    requires WonStep(w, v, c, voters) && LogsGrow(w, v, w.peers[c].currentTerm, c)
    ensures LogsOk(v)
  {
    var term, log := w.peers[c].currentTerm, w.peers[c].log;
    LogOkGrows(w.logs, v.logs, log, term - 1, term);
    assert LeaderLogOk(v, term) && PeerLogOk(v, c);
    GrowthKeepsLogs(w, v, term, c);
  }

  /** Appending an entry of its own term to the leader's log. */
  lemma AppendedOk(logs: Logs, log: seq<LogEntry>, term: nat, e: LogEntry, more: Logs)
    requires LogOk(logs, log, term) && Extends(logs, more)
    requires e.term == term && e.index == |log| && term in more && more[term] == log + [e]
    ensures LogOk(more, log + [e], term)
  {
    LogOkGrows(logs, more, log, term, term);
    forall k | 1 <= k <= |log| ensures EntryOk(more, log + [e], k) {
      if k < |log| {
        assert EntryOk(more, log, k);
        assert (log + [e])[..k + 1] == log[..k + 1];
      }
    }
  }

  /** Leader `i` appends `e` to its log. */
  ghost predicate Appended(w: World, v: World, i: nat, e: LogEntry)
    requires Shape(w)
  {
    && i < |w.peers| && w.peers[i].role.Leader? && e.term == w.peers[i].currentTerm && e.index == |w.peers[i].log|
    && var p := w.peers[i];
       v == w.(peers := w.peers[i := p.(log := p.log + [e])], logs := w.logs[p.currentTerm := p.log + [e]])
  }

  lemma SubmitForm(w: World, i: nat, command: Command)
    requires Shape(w) && Enabled(w, Submit(i, command))
    ensures var p := w.peers[i]; var v := AfterSubmit(w, i, command);
      if p.role.Leader? then Appended(w, v, i, LogEntry(command, p.currentTerm, |p.log|)) else v == w
  {}

  lemma AppendedGrows(w: World, v: World, i: nat, e: LogEntry)
    requires Shape(w) && Winners(w) && LogsOk(w) && Appended(w, v, i, e)
    ensures LogsGrow(w, v, w.peers[i].currentTerm, i)
  {
    assert PeerLogOk(w, i);
  }

  lemma AppendedKeepsLogs(w: World, v: World, i: nat, e: LogEntry)
    requires Shape(w) && Shape(v) && LogsOk(w) && Appended(w, v, i, e) && LogsGrow(w, v, w.peers[i].currentTerm, i)
    ensures LogsOk(v)
  {
    var term, log := w.peers[i].currentTerm, w.peers[i].log;
    assert PeerLogOk(w, i) && LeaderLogOk(w, term);
    AppendedOk(w.logs, log, term, e, v.logs);
    assert LeaderLogOk(v, term) && PeerLogOk(v, i);
    GrowthKeepsLogs(w, v, term, i);
  }

  /** What a peer that is no leader of the request's term does with a request that is not stale. */
  ghost predicate Received(p: Peer, args: AppendEntriesArgs, out: AppendOutcome) {
    && args.term >= p.currentTerm
    && out.reply.term == args.term && out.reply.followerId == p.me
    && out.reply.isHeartbeat == (|args.entries| == 0)
    && out.reply.success == Consistent(p.log, args)
    && out.peer == p.(currentTerm := args.term, role := Follower, votedFor := out.peer.votedFor,
                      log := out.peer.log, commitIndex := out.peer.commitIndex)
    && (if out.reply.success then
          && 0 <= args.prevLogIndex < |p.log| && out.peer.log == Merge(p.log, args.prevLogIndex, args.entries)
          && out.peer.commitIndex == (if args.leaderCommit > p.commitIndex
                                      then Min(args.leaderCommit, LastIndex(out.peer.log)) else p.commitIndex)
          && out.sent == Deliveries(out.peer.log, p.commitIndex, out.peer.commitIndex)
          && (|out.peer.log| > 0 ==> out.reply.lastLogIndex == |out.peer.log| - 1)
        else
          out.peer.log == p.log && out.peer.commitIndex == p.commitIndex && out.sent == [])
  }

  lemma HandlerReceived(p: Peer, args: AppendEntriesArgs)
    requires |p.log| > 0 && WellFormed(args) && args.term >= p.currentTerm && args.prevLogTerm >= 0
    requires p.role.Leader? ==> args.term > p.currentTerm
    ensures Received(p, args, OnAppendEntries(p, args))
  {}

  /** The delivery of a request that is not stale. */
  ghost predicate AppendStep(w: World, v: World, m: Append, out: AppendOutcome)
    requires Shape(w)
  {
    && m in w.appends && AppendOk(w, m) && Received(w.peers[m.to], m.args, out)
    && v == w.(peers := w.peers[m.to := out.peer],
               acks := w.acks + {Ack(m.args.term, m.args.leaderId, out.reply)},
               applied := w.applied[m.to := w.applied[m.to] + out.sent],
               held := if out.reply.success && !out.reply.isHeartbeat
                       then w.held + set k: nat | 0 <= k < |out.peer.log| :: Held(m.args.term, m.to, k) else w.held)
  }

  /** The delivery of a stale request changes nothing but the replies in flight. */
  ghost predicate StaleStep(w: World, v: World, m: Append, reply: AppendEntriesReply)
    requires Shape(w)
  {
    && m in w.appends && AppendOk(w, m) && reply.term > m.args.term && !reply.success && reply.followerId == m.to
    && v == w.(acks := w.acks + {Ack(m.args.term, m.args.leaderId, reply)})
  }

  lemma DeliverAppendForm(w: World, m: Append) returns (out: AppendOutcome)
    requires Shape(w) && Winners(w) && Traffic(w) && m in w.appends
    ensures AppendStep(w, AfterAppend(w, m), m, out) || StaleStep(w, AfterAppend(w, m), m, out.reply)
    ensures AppendStep(w, AfterAppend(w, m), m, out) <==> m.args.term >= w.peers[m.to].currentTerm
  {
    var p := w.peers[m.to];
    out := OnAppendEntries(p, m.args);
    assert AppendOk(w, m);
    if m.args.term >= p.currentTerm {
      HandlerReceived(p, m.args);
    } else {
      assert w.applied[m.to] + [] == w.applied[m.to];
    }
  }

  /** The part of the leader's log a request vouches for: everything up to its last entry. */
  ghost function Sent(w: World, m: Append): seq<LogEntry>
    requires Shape(w) && m in w.appends && AppendOk(w, m)
  {
    w.logs[m.args.term][..m.args.prevLogIndex + 1 + |m.args.entries|]
  }

  /** The effect of a request that is not stale on the follower's log. */
  lemma AppendForm(w: World, v: World, m: Append, out: AppendOutcome)
    requires Shape(w) && LogsOk(w) && AppendStep(w, v, m, out)
    ensures out.peer.log ==
      if out.reply.success && !(Sent(w, m) <= w.peers[m.to].log) then Sent(w, m) else w.peers[m.to].log
  {
    var p := w.peers[m.to];
    var t := m.args.term;
    assert PeerLogOk(w, m.to) && LeaderLogOk(w, t);
    if out.reply.success {
      MergeForm(w.logs, p.log, p.currentTerm, w.logs[t], t, m.args.prevLogIndex, m.args.entries);
    }
  }

  lemma OldOrSent(logs: Logs, log: seq<LogEntry>, x: nat, lead: seq<LogEntry>, t: nat, n: nat, result: seq<LogEntry>)
    requires LogOk(logs, log, x) && x <= t && LogOk(logs, lead, t) && 0 < n <= |lead|
    requires result == log || result == lead[..n]
    ensures LogOk(logs, result, t)
  {
    if result == log {
      LogOkGrows(logs, logs, log, x, t);
    } else {
      PrefixOk(logs, lead, t, n);
    }
  }

  lemma ReceiverLog(w: World, v: World, m: Append, out: AppendOutcome)
    requires Shape(w) && LogsOk(w) && AppendStep(w, v, m, out)
    ensures LogOk(w.logs, out.peer.log, m.args.term)
  {
    var p, t := w.peers[m.to], m.args.term;
    AppendForm(w, v, m, out);
    assert PeerLogOk(w, m.to) && LeaderLogOk(w, t);
    OldOrSent(w.logs, p.log, p.currentTerm, w.logs[t], t, |Sent(w, m)|, out.peer.log);
  }

  lemma AppendKeepsLogs(w: World, v: World, m: Append, out: AppendOutcome)
    requires Shape(w) && Shape(v) && LogsOk(w) && AppendStep(w, v, m, out)
    ensures LogsOk(v)
  {
    ReceiverLog(w, v, m, out);
    forall t | t in v.logs ensures LeaderLogOk(v, t) { assert LeaderLogOk(w, t); }
    forall i | 0 <= i < |v.peers| ensures PeerLogOk(v, i) { assert PeerLogOk(w, i); }
  }
}
