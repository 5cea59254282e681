/** The invariant of the cluster is kept by every step. Each kind of step is put together from what the
    modules about elections, logs, messages, acknowledgements, votes and commitments say of it. */
module RaftSafety {
  import opened RaftTypes
  import opened RaftHandlers
  import opened RaftWorld
  import opened RaftInvariant
  import opened RaftElections
  import opened RaftReplication
  import opened RaftTraffic
  import opened RaftCompleteness
  import opened RaftVoting
  import opened RaftCommitment

  // ---------- The invariant is inductive ----------

  lemma InitInv(n: nat)
    requires n > 0
    ensures Inv(Init(n))
  {
    var w := Init(n);
    forall i | 0 <= i < n ensures PeerLogOk(w, i) {}
    forall i | 0 <= i < n ensures DeliveredOk(w.peers[i], w.applied[i]) {}
  }

  lemma TimeoutKeepsInv(w: World, i: nat)
    requires Inv(w) && Enabled(w, Timeout(i))
    ensures Inv(AfterTimeout(w, i))
  {
    var v := AfterTimeout(w, i);
    TimeoutKeepsBallots(w, i);
    TimeoutKeepsCampaigns(w, i);
    TimeoutKeepsWinners(w, i);
    UntouchedSteps(w, Timeout(i));
    UntouchedKeepsLogs(w, v);
    QuietSteps(w, Timeout(i));
    QuietKeepsRest(w, v);
    TimeoutKeepsVoting(w, i);
  }

  lemma QuietKeepsRest(w: World, v: World)
    requires Inv(w) && Shape(v) && Quiet(w, v)
    ensures Traffic(v) && Holding(v) && Committed(v) && Delivered(v)
  {
    QuietKeepsTraffic(w, v);
    GrowingKeepsHolding(w, v);
    PrefixesKeepCommitted(w, v);
    PrefixesKeepDelivered(w, v);
  }

  lemma VoteRequestKeepsInv(w: World, key: CallKey)
    requires Inv(w) && Enabled(w, DeliverVoteRequest(key))
    ensures Inv(AfterVoteRequest(w, key))
  {
    var v := AfterVoteRequest(w, key);
    VoteRequestKeepsBallots(w, key);
    VoteRequestKeepsCampaigns(w, key);
    VoteRequestKeepsWinners(w, key);
    UntouchedSteps(w, DeliverVoteRequest(key));
    UntouchedKeepsLogs(w, v);
    QuietSteps(w, DeliverVoteRequest(key));
    QuietKeepsRest(w, v);
    VoteRequestKeepsVoting(w, key);
  }

  lemma VoteReplyShape(w: World, key: CallKey)
    requires Shape(w) && Enabled(w, DeliverVoteReply(key))
    ensures Shape(AfterVoteReply(w, key))
  {}

  /** Nothing is acknowledged, committed or delivered, and logs only grow. */
  ghost predicate Plain(w: World, v: World)
    requires Shape(w) && Shape(v)
  {
    && NoVote(w, v) && v.held == w.held && KeepsPrefixes(w, v) && v.appends == w.appends && v.applied == w.applied
    && (forall i :: 0 <= i < |w.peers| ==> v.peers[i].lastApplied == w.peers[i].lastApplied)
  }

  lemma PlainKeepsRest(w: World, v: World)
    requires Inv(w) && Shape(v) && Ballots(v) && Plain(w, v)
    ensures Holding(v) && Voting(v) && Committed(v) && Delivered(v)
  {
    GrowingKeepsHolding(w, v);
    NoVoteKeepsVoting(w, v);
    PrefixesKeepCommitted(w, v);
    PrefixesKeepDelivered(w, v);
  }

  lemma WonKeepsInv(w: World, v: World, c: nat, voters: set<nat>)
    requires Inv(w) && Shape(v) && WonStep(w, v, c, voters) && Ballots(v) && Campaigns(v) && Winners(v)
    ensures Inv(v)
  {
    assert CandidateOk(w, c);
    WonGrows(w, v, c, voters);
    WonKeepsLogs(w, v, c, voters);
    WonKeepsTraffic(w, v, c, voters);
    PlainKeepsRest(w, v);
  }

  lemma VoteReplyKeepsInv(w: World, key: CallKey)
    requires Inv(w) && Enabled(w, DeliverVoteReply(key))
    ensures Inv(AfterVoteReply(w, key))
  {
    var v := AfterVoteReply(w, key);
    VoteReplyShape(w, key);
    VoteReplyKeepsBallots(w, key);
    VoteReplyKeepsCampaigns(w, key);
    VoteReplyKeepsWinners(w, key);
    if Wins(w, key) {
      VoteReplyWinner(w, key);
      WinsWon(w, key);
      WonKeepsInv(w, v, key.cand, w.counted[key.cand] + {key.voter});
    } else {
      UntouchedSteps(w, DeliverVoteReply(key));
      QuietSteps(w, DeliverVoteReply(key));
      LostReplyKeepsInv(w, v);
    }
  }

  lemma LostReplyKeepsInv(w: World, v: World)
    requires Inv(w) && Shape(v) && Ballots(v) && Campaigns(v) && Winners(v) && LogsUntouched(w, v) && Quiet(w, v)
    requires v.grants == w.grants && v.candLogs == w.candLogs
    ensures Inv(v)
  {
    UntouchedKeepsLogs(w, v);
    QuietKeepsRest(w, v);
    NoVoteKeepsVoting(w, v);
  }

  lemma AppendedKeepsInv(w: World, v: World, i: nat, e: LogEntry)
    requires Inv(w) && Shape(v) && Calm(w, v) && Appended(w, v, i, e)
    ensures Inv(v)
  {
    CalmKeepsVotes(w, v);
    AppendedGrows(w, v, i, e);
    AppendedKeepsLogs(w, v, i, e);
    AppendedKeepsTraffic(w, v, i, e);
    PlainKeepsRest(w, v);
  }

  lemma SubmitKeepsInv(w: World, i: nat, command: Command)
    requires Inv(w) && Enabled(w, Submit(i, command))
    ensures Inv(AfterSubmit(w, i, command))
  {
    var v := AfterSubmit(w, i, command);
    SubmitForm(w, i, command);
    if w.peers[i].role.Leader? {
      CalmSteps(w, Submit(i, command));
      AppendedKeepsInv(w, v, i, LogEntry(command, w.peers[i].currentTerm, |w.peers[i].log|));
    }
  }

  lemma CalmKeepsVotes(w: World, v: World)
    requires Shape(w) && Ballots(w) && Campaigns(w) && Winners(w) && Shape(v) && Calm(w, v)
    ensures Ballots(v) && Campaigns(v) && Winners(v)
  {
    CalmKeepsBallots(w, v);
    CalmKeepsCampaigns(w, v);
    SettledKeepsWinners(w, v);
  }

  lemma ReplicationShape(w: World, i: nat, f: nat)
    requires Shape(w) && LogsOk(w) && Traffic(w) && Enabled(w, Replicate(i)) && f < |w.peers| && f != i
      && w.peers[i].nextIndex[f] >= 1
    ensures WellFormed(Replication(w.peers[i], w.peers[i].nextIndex[f]))
  {
    assert PeerLogOk(w, i) && LeaderViewOk(w, i, f);
    IndexedLog(w.logs, w.peers[i].log, w.peers[i].currentTerm);
  }

  lemma ReplicateShape(w: World, i: nat)
    requires Shape(w) && LogsOk(w) && Traffic(w) && Enabled(w, Replicate(i))
    ensures Shape(AfterReplicate(w, i))
  {
    forall f | 0 <= f < |w.peers| && f != i && w.peers[i].nextIndex[f] >= 1
      ensures WellFormed(Replication(w.peers[i], w.peers[i].nextIndex[f]))
    {
      ReplicationShape(w, i, f);
    }
  }

  lemma ReplicateKeepsVotes(w: World, i: nat)
    requires Shape(w) && Ballots(w) && Campaigns(w) && Winners(w) && LogsOk(w) && Enabled(w, Replicate(i))
    requires Shape(AfterReplicate(w, i))
    ensures var v := AfterReplicate(w, i); Ballots(v) && Campaigns(v) && Winners(v) && LogsOk(v)
  {
    var v := AfterReplicate(w, i);
    CalmSteps(w, Replicate(i));
    CalmKeepsVotes(w, v);
    UntouchedSteps(w, Replicate(i));
    UntouchedKeepsLogs(w, v);
  }

  lemma ReplicateKeepsInv(w: World, i: nat)
    requires Inv(w) && Enabled(w, Replicate(i))
    ensures Inv(AfterReplicate(w, i))
  {
    var v := AfterReplicate(w, i);
    ReplicateShape(w, i);
    ReplicateKeepsVotes(w, i);
    ReplicateKeepsTraffic(w, i);
    GrowingKeepsHolding(w, v);
    NoVoteKeepsVoting(w, v);
    ReplicateKeepsCommitted(w, i);
    PrefixesKeepDelivered(w, v);
  }

  lemma AppendShape(w: World, v: World, m: Append, out: AppendOutcome)
    requires Shape(w) && LogsOk(w) && AppendStep(w, v, m, out)
    ensures Shape(v)
  {
    ReceiverLog(w, v, m, out);
  }

  lemma AppendStepKeepsInv(w: World, v: World, m: Append, out: AppendOutcome)
    requires Inv(w) && AppendStep(w, v, m, out) && Calm(w, v)
    ensures Inv(v)
  {
    AppendShape(w, v, m, out);
    CalmKeepsVotes(w, v);
    AppendKeepsLogs(w, v, m, out);
    AppendStepKeepsTraffic(w, v, m, out);
    AppendStepKeepsHolding(w, v, m, out);
    NoVoteKeepsVoting(w, v);
    FollowerCovered(w, m.to, m.args.term);
    NoTruncationBelowCommit(w, v, m, out);
    ReceiverLog(w, v, m, out);
    FollowerStaysCovered(w, v, m, out);
    AppendStepKeepsCommitted(w, v, m, out);
    AppendStepKeepsDelivered(w, v, m, out);
  }

  lemma StaleStepKeepsInv(w: World, v: World, m: Append, reply: AppendEntriesReply)
    requires Inv(w) && StaleStep(w, v, m, reply) && Shape(v) && Calm(w, v)
    ensures Inv(v)
  {
    CalmKeepsVotes(w, v);
    UntouchedKeepsLogs(w, v);
    StaleKeepsTraffic(w, v, m, reply);
    PlainKeepsRest(w, v);
  }

  lemma NackedKeepsInv(w: World, v: World, a: Ack)
    requires Inv(w) && a in w.acks && Nacked(w, v, a) && Shape(v) && Calm(w, v)
    ensures Inv(v)
  {
    CalmKeepsVotes(w, v);
    UntouchedKeepsLogs(w, v);
    NackedKeepsTraffic(w, v, a);
    PlainKeepsRest(w, v);
  }

  lemma AcknowledgedKeepsInv(w: World, v: World, a: Ack, out: CommitOutcome)
    requires Inv(w) && a in w.acks && Acknowledged(w, v, a, out) && Shape(v) && Calm(w, v)
    ensures Inv(v)
  {
    CommitAtForm(Acknowledge(w.peers[a.leader], a.reply.followerId, a.reply.lastLogIndex), a.reply.lastLogIndex);
    CalmKeepsVotes(w, v);
    UntouchedKeepsLogs(w, v);
    AcknowledgedKeepsTraffic(w, v, a, out);
    AcknowledgedKeepsHolding(w, v, a, out);
    NoVoteKeepsVoting(w, v);
    AcknowledgedKeepsCommitted(w, v, a, out);
    AcknowledgedKeepsDelivered(w, v, a, out);
  }

  lemma QuietCalmKeepsInv(w: World, v: World)
    requires Inv(w) && Shape(v) && Quiet(w, v) && Calm(w, v)
    ensures Inv(v)
  {
    CalmKeepsVotes(w, v);
    UntouchedKeepsLogs(w, v);
    QuietKeepsRest(w, v);
    NoVoteKeepsVoting(w, v);
  }

  lemma DeliverAppendKeepsInv(w: World, m: Append)
    requires Inv(w) && Enabled(w, DeliverAppend(m))
    ensures Inv(AfterAppend(w, m))
  {
    var v := AfterAppend(w, m);
    CalmSteps(w, DeliverAppend(m));
    var out := DeliverAppendForm(w, m);
    if AppendStep(w, v, m, out) {
      AppendStepKeepsInv(w, v, m, out);
    } else {
      StaleStepKeepsInv(w, v, m, out.reply);
    }
  }

  lemma DeliverAckKeepsInv(w: World, a: Ack)
    requires Inv(w) && Enabled(w, DeliverAck(a))
    ensures Inv(AfterAck(w, a))
  {
    var out := DeliverAckForm(w, a);
    AckKeepsInv(w, AfterAck(w, a), a, out);
  }

  lemma AckCalm(w: World, a: Ack)
    requires Shape(w) && Winners(w) && Enabled(w, DeliverAck(a))
    ensures Calm(w, AfterAck(w, a))
  {
    CalmSteps(w, DeliverAck(a));
  }

  lemma AckKeepsInv(w: World, v: World, a: Ack, out: CommitOutcome)
    requires Inv(w) && Enabled(w, DeliverAck(a)) && v == AfterAck(w, a)
    requires Quiet(w, v) || Nacked(w, v, a) || Acknowledged(w, v, a, out)
    ensures Inv(v)
  {
    AckCalm(w, a);
    if Quiet(w, v) {
      QuietCalmKeepsInv(w, v);
    } else if Nacked(w, v, a) {
      NackedKeepsInv(w, v, a);
    } else {
      AcknowledgedKeepsInv(w, v, a, out);
    }
  }

  /** Every step keeps the invariant. */
  lemma StepKeepsInv(w: World, step: Step)
    requires Inv(w) && Enabled(w, step)
    ensures Inv(After(w, step))
  {
    match step
    case Timeout(i) => TimeoutKeepsInv(w, i);
    case DeliverVoteRequest(key) => VoteRequestKeepsInv(w, key);
    case DeliverVoteReply(key) => VoteReplyKeepsInv(w, key);
    case LoseVoteCall(key) =>
      CalmSteps(w, step);
      QuietSteps(w, step);
      QuietCalmKeepsInv(w, After(w, step));
    case Submit(i, command) => SubmitKeepsInv(w, i, command);
    case Replicate(i) => ReplicateKeepsInv(w, i);
    case DeliverAppend(m) => DeliverAppendKeepsInv(w, m);
    case DeliverAck(a) => DeliverAckKeepsInv(w, a);
  }
}
