/** Runs of a cluster, built step by step from the initial state. */
module RaftRuns {
  import opened Runs
  import opened RaftTypes
  import opened RaftHandlers
  import opened RaftWorld
  import opened RaftTheorems

  lemma Extend(ws: seq<World>, n: nat, step: Step) returns (more: seq<World>)
    requires Run(ws, n) && Shape(Last(ws)) && Enabled(Last(ws), step)
    ensures Run(more, n) && Shape(Last(more)) && |Last(more).peers| == n && Last(more) == After(Last(ws), step)
  {
    more := ws + [After(Last(ws), step)];
    Extended(ws, Init(n), Next, After(Last(ws), step));
    RunInv(more, n, |more| - 1);
  }

  /** A run of `n` peers has come to a state with these peers. */
  ghost predicate At(ws: seq<World>, n: nat, peers: seq<Peer>) {
    Run(ws, n) && Shape(Last(ws)) && Last(ws).peers == peers && |peers| == n
  }

  lemma Start(n: nat) returns (ws: seq<World>)
    requires n > 0
    ensures At(ws, n, seq(n, i requires 0 <= i => Fresh(i, n))) && Last(ws).calls == map[] && Last(ws).appends == {}
      && Last(ws).acks == {}
  {
    ws := [Init(n)];
    RunInv(ws, n, 0);
  }

  ghost predicate SameAppends(w: World, v: World) {
    v.appends == w.appends && v.acks == w.acks
  }

  lemma DoTimeout(ws: seq<World>, n: nat, peers: seq<Peer>, i: nat) returns (more: seq<World>)
    requires At(ws, n, peers) && i < n && !peers[i].role.Leader?
    ensures var p := Campaign(peers[i]);
      && At(more, n, peers[i := p]) && SameAppends(Last(ws), Last(more))
      && (forall v {:trigger CallKey(p.currentTerm, i, v)} :: 0 <= v < n && v != i ==>
            CallKey(p.currentTerm, i, v) in Last(more).calls
            && Last(more).calls[CallKey(p.currentTerm, i, v)] == Asked(VoteRequest(p)))
      && (forall key {:trigger key in Last(more).calls} :: key in Last(ws).calls && key.cand != i ==>
            key in Last(more).calls && Last(more).calls[key] == Last(ws).calls[key])
  {
    more := Extend(ws, n, Timeout(i));
    var p := Campaign(peers[i]);
    forall v | 0 <= v < n && v != i ensures CallKey(p.currentTerm, i, v) in CallsOf(p.currentTerm, i, n) {}
  }

  lemma DoVote(ws: seq<World>, n: nat, peers: seq<Peer>, key: CallKey, args: RequestVoteArgs) returns (more: seq<World>)
    requires At(ws, n, peers) && key in Last(ws).calls && Last(ws).calls[key] == Asked(args) && key.voter < n
    ensures var out := OnRequestVote(peers[key.voter], args);
      At(more, n, peers[key.voter := out.peer]) && SameAppends(Last(ws), Last(more))
      && Last(more).calls == Last(ws).calls[key := Answered(out.reply)]
  {
    more := Extend(ws, n, DeliverVoteRequest(key));
  }

  lemma DoCount(ws: seq<World>, n: nat, peers: seq<Peer>, key: CallKey, reply: RequestVoteReply)
    returns (more: seq<World>)
    requires At(ws, n, peers) && key in Last(ws).calls && Last(ws).calls[key] == Answered(reply) && key.cand < n
    ensures At(more, n, peers[key.cand := OnVoteReply(peers[key.cand], key.term, reply)])
      && SameAppends(Last(ws), Last(more))
    ensures Last(more).calls == Last(ws).calls - {key}
  {
    more := Extend(ws, n, DeliverVoteReply(key));
  }

  lemma DoSubmit(ws: seq<World>, n: nat, peers: seq<Peer>, i: nat, command: Command) returns (more: seq<World>)
    requires At(ws, n, peers) && i < n
    ensures At(more, n, peers[i := OnStart(peers[i], command)]) && SameAppends(Last(ws), Last(more))
    ensures Last(more).calls == Last(ws).calls
  {
    more := Extend(ws, n, Submit(i, command));
  }

  lemma DoReplicate(ws: seq<World>, n: nat, peers: seq<Peer>, i: nat) returns (more: seq<World>)
    requires At(ws, n, peers) && i < n && peers[i].role.Leader? && |peers[i].nextIndex| == n
    ensures At(more, n, peers) && Last(more).calls == Last(ws).calls && Last(ws).appends <= Last(more).appends
    ensures Last(more).acks == Last(ws).acks
    ensures forall f {:trigger peers[i].nextIndex[f]} :: 0 <= f < n && f != i && peers[i].nextIndex[f] >= 1 ==>
      Append(f, Replication(peers[i], peers[i].nextIndex[f])) in Last(more).appends
  {
    more := Extend(ws, n, Replicate(i));
  }

  lemma DoAppend(ws: seq<World>, n: nat, peers: seq<Peer>, m: Append) returns (more: seq<World>)
    requires At(ws, n, peers) && m in Last(ws).appends && m.to < n && |peers[m.to].log| > 0 && WellFormed(m.args)
    ensures var out := OnAppendEntries(peers[m.to], m.args);
      At(more, n, peers[m.to := out.peer]) && Last(more).calls == Last(ws).calls
        && Last(more).appends == Last(ws).appends
      && Last(more).acks == Last(ws).acks + {Ack(m.args.term, m.args.leaderId, out.reply)}
  {
    more := Extend(ws, n, DeliverAppend(m));
  }

  lemma DoAck(ws: seq<World>, n: nat, peers: seq<Peer>, a: Ack) returns (more: seq<World>)
    requires At(ws, n, peers) && a in Last(ws).acks && a.leader < n && a.reply.followerId < n
    requires |peers[a.leader].nextIndex| == n && |peers[a.leader].matchIndex| == n
    ensures var out := OnAppendReply(peers[a.leader], a.sentTerm, a.reply);
      && At(more, n, peers[a.leader := out.peer])
      && |Last(ws).applied| == |Last(more).applied| == n
      && Last(more).applied[a.leader] == Last(ws).applied[a.leader] + out.sent
    ensures Last(more).calls == Last(ws).calls && SameAppends(Last(ws), Last(more))
  {
    more := Extend(ws, n, DeliverAck(a));
  }
}
