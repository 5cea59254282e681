/** A cluster of peers, the messages between them, and the steps they take. Vote calls are answered
    at most once and may be lost; append requests and their replies stay in the network for ever, so
    they may be lost, delayed, reordered and even delivered again. */
module RaftWorld {
  import opened RaftTypes
  import opened RaftHandlers

  datatype CallKey = CallKey(term: nat, cand: nat, voter: nat)

  datatype VoteCall = Asked(args: RequestVoteArgs) | Answered(reply: RequestVoteReply)

  datatype Append = Append(to: nat, args: AppendEntriesArgs)

  datatype Ack = Ack(sentTerm: nat, leader: nat, reply: AppendEntriesReply)

  // History: who voted for whom, who won with which votes and which log, what each follower has
  // acknowledged to which leader, and which positions leaders have committed.

  datatype Grant = Grant(term: nat, voter: nat, cand: nat)

  datatype Candidacy = Candidacy(term: nat, cand: nat)

  datatype Election = Election(leader: nat, voters: set<nat>, base: seq<LogEntry>)

  datatype Held = Held(term: nat, peer: nat, index: nat)

  datatype Commit = Commit(term: nat, index: nat)

  datatype World = World(
    peers: seq<Peer>,
    calls: map<CallKey, VoteCall>,
    appends: set<Append>,
    acks: set<Ack>,
    /** Everything each peer has sent on its `applyCh`, in order. */
    applied: seq<seq<ApplyMsg>>,
    /** The voters each peer has counted in its latest campaign. */
    counted: seq<set<nat>>,
    grants: set<Grant>,
    candLogs: map<Candidacy, seq<LogEntry>>,
    elections: map<nat, Election>,
    /** The log of the leader of each term, as far as it has grown. */
    logs: map<nat, seq<LogEntry>>,
    held: set<Held>,
    commits: set<Commit>)

  datatype Step =
    | Timeout(i: nat)
    | DeliverVoteRequest(key: CallKey)
    | DeliverVoteReply(key: CallKey)
    | LoseVoteCall(key: CallKey)
    | Submit(i: nat, command: Command)
    | Replicate(i: nat)
    | DeliverAppend(append: Append)
    | DeliverAck(ack: Ack)

  /** Structural facts: as many of everything as there are peers, and messages addressed to peers. */
  ghost predicate Shape(w: World) {
    var n := |w.peers|;
    && n > 0 && |w.applied| == n && |w.counted| == n
    && (forall i :: 0 <= i < n ==> PeerShape(w.peers[i], i, n))
    && (forall key :: key in w.calls ==> key.cand < n && key.voter < n && key.cand != key.voter)
    && (forall m :: m in w.appends ==> m.to < n && m.args.leaderId < n && m.to != m.args.leaderId && WellFormed(m.args))
    && (forall a :: a in w.acks ==> a.leader < n && a.reply.followerId < n && a.leader != a.reply.followerId)
  }

  predicate PeerShape(p: Peer, i: nat, n: nat) {
    p.me == i && p.numPeers == n && |p.log| > 0 && |p.nextIndex| == n && |p.matchIndex| == n
  }

  function Init(n: nat): World {
    World(seq(n, i requires 0 <= i => Fresh(i, n)), map[], {}, {}, seq(n, _ => []), seq(n, _ => {}), {}, map[], map[],
      map[], {}, {})
  }

  ghost predicate Enabled(w: World, step: Step) {
    match step
    case Timeout(i) => i < |w.peers| && !w.peers[i].role.Leader?
    case DeliverVoteRequest(key) => key in w.calls && w.calls[key].Asked?
    case DeliverVoteReply(key) => key in w.calls && w.calls[key].Answered?
    case LoseVoteCall(key) => key in w.calls
    case Submit(i, _) => i < |w.peers|
    case Replicate(i) => i < |w.peers| && w.peers[i].role.Leader?
    case DeliverAppend(append) => append in w.appends
    case DeliverAck(ack) => ack in w.acks
  }

  ghost function CallsOf(term: nat, cand: nat, n: nat): set<CallKey> {
    set v | 0 <= v < n && v != cand :: CallKey(term, cand, v)
  }

  ghost function AfterTimeout(w: World, i: nat): World
    requires Shape(w) && i < |w.peers|
  {
    var p := Campaign(w.peers[i]);
    w.(peers := w.peers[i := p],
      calls := w.calls + map key | key in CallsOf(p.currentTerm, i, |w.peers|) :: Asked(VoteRequest(p)),
      counted := w.counted[i := {i}],
      grants := w.grants + {Grant(p.currentTerm, i, i)},
      candLogs := w.candLogs[Candidacy(p.currentTerm, i) := p.log])
  }

  ghost function AfterVoteRequest(w: World, key: CallKey): World
    requires Shape(w) && key in w.calls && w.calls[key].Asked?
  {
    var out := OnRequestVote(w.peers[key.voter], w.calls[key].args);
    w.(peers := w.peers[key.voter := out.peer],
      calls := w.calls[key := Answered(out.reply)],
      grants := if out.reply.voteGranted then w.grants + {Grant(key.term, key.voter, key.cand)} else w.grants)
  }

  /** The reply is a vote that still counts. */
  ghost predicate Counts(w: World, key: CallKey)
    requires Shape(w) && key in w.calls && w.calls[key].Answered?
  {
    var p := w.peers[key.cand];
    var reply := w.calls[key].reply;
    VoteReplyActs(p, key.term) && reply.term <= p.currentTerm && reply.voteGranted
  }

  /** The reply completes a majority. */
  ghost predicate Wins(w: World, key: CallKey)
    requires Shape(w) && key in w.calls && w.calls[key].Answered?
  {
    Counts(w, key) && IsElected(w.peers[key.cand].votesGot + 1, w.peers[key.cand].numPeers)
  }

  ghost function AfterVoteReply(w: World, key: CallKey): World
    requires Shape(w) && key in w.calls && w.calls[key].Answered?
  {
    var q := OnVoteReply(w.peers[key.cand], key.term, w.calls[key].reply);
    var counted := if Counts(w, key) then w.counted[key.cand] + {key.voter} else w.counted[key.cand];
    w.(peers := w.peers[key.cand := q],
      calls := w.calls - {key},
      counted := w.counted[key.cand := counted],
      elections :=
        if Wins(w, key) then w.elections[q.currentTerm := Election(key.cand, counted, q.log)] else w.elections,
      logs := if Wins(w, key) then w.logs[q.currentTerm := q.log] else w.logs)
  }

  ghost function AfterSubmit(w: World, i: nat, command: Command): World
    requires Shape(w) && i < |w.peers|
  {
    var q := OnStart(w.peers[i], command);
    w.(peers := w.peers[i := q],
      logs := if q.role.Leader? then w.logs[q.currentTerm := q.log] else w.logs)
  }

  /** For a next index below 1 the source panics, in which case only some of the others may be sent a request. */
  ghost function AfterReplicate(w: World, i: nat): World
    requires Shape(w) && i < |w.peers|
  {
    var p := w.peers[i];
    w.(appends := w.appends +
      set f | 0 <= f < |w.peers| && f != i && p.nextIndex[f] >= 1 :: Append(f, Replication(p, p.nextIndex[f])))
  }

  ghost function AfterAppend(w: World, m: Append): World
    requires Shape(w) && m in w.appends
  {
    var out := OnAppendEntries(w.peers[m.to], m.args);
    w.(peers := w.peers[m.to := out.peer],
      acks := w.acks + {Ack(m.args.term, m.args.leaderId, out.reply)},
      applied := w.applied[m.to := w.applied[m.to] + out.sent],
      held := if out.reply.success && !out.reply.isHeartbeat
        then w.held + set k: nat | 0 <= k < |out.peer.log| :: Held(m.args.term, m.to, k) else w.held)
  }

  ghost function AfterAck(w: World, a: Ack): World
    requires Shape(w) && a in w.acks
  {
    var p := w.peers[a.leader];
    var out := OnAppendReply(p, a.sentTerm, a.reply);
    var committed := out.peer.commitIndex != p.commitIndex;
    w.(peers := w.peers[a.leader := out.peer],
      applied := w.applied[a.leader := w.applied[a.leader] + out.sent],
      held := if committed then w.held + {Held(p.currentTerm, a.leader, out.peer.commitIndex)} else w.held,
      commits := if committed then w.commits + {Commit(p.currentTerm, out.peer.commitIndex)} else w.commits)
  }

  ghost function After(w: World, step: Step): World
    requires Shape(w) && Enabled(w, step)
  {
    match step
    case Timeout(i) => AfterTimeout(w, i)
    case DeliverVoteRequest(key) => AfterVoteRequest(w, key)
    case DeliverVoteReply(key) => AfterVoteReply(w, key)
    case LoseVoteCall(key) => w.(calls := w.calls - {key})
    case Submit(i, command) => AfterSubmit(w, i, command)
    case Replicate(i) => AfterReplicate(w, i)
    case DeliverAppend(append) => AfterAppend(w, append)
    case DeliverAck(ack) => AfterAck(w, ack)
  }
}
