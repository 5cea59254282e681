/** Leader Completeness. */
module RaftCompleteness {
  import opened RaftTypes
  import opened RaftHandlers
  import opened RaftWorld
  import opened RaftInvariant
  import opened RaftElections
  import opened RaftReplication
  import opened RaftTraffic

  // ---------- Leader Completeness ----------

  /** A log that is at least as up to date as entry `k` of the leader of `term` holds that entry, provided
      the leader of its own last entry's term does. */
  lemma LastEntryDecides(logs: Logs, base: seq<LogEntry>, bound: nat, term: nat, k: nat)
    requires LogOk(logs, base, bound) && term in logs && k < |logs[term]| && LogOk(logs, logs[term], term)
    requires term >= 1 && AtLeast(base, term, k)
    requires LastTerm(base) > term && LastTerm(base) in logs ==> logs[term][..k + 1] <= logs[LastTerm(base)]
    ensures logs[term][..k + 1] <= base
  {
    var last := |base| - 1;
    assert base[..last + 1] == base;
    if 1 <= last {
      assert EntryOk(logs, base, last);
      if LastTerm(base) > term {
        assert forall j :: 0 <= j <= k ==> logs[LastTerm(base)][j] == logs[term][..k + 1][j];
      }
    }
  }

  /** The vote of a peer that had acknowledged the entry: the winner's log is up to date enough, or
      some leader in between already lacked the entry. */
  lemma CommonVoter(w: World, c: Commit, t: nat)
    requires Shape(w) && Ballots(w) && Winners(w) && Holding(w) && Voting(w)
    requires c in w.commits && CommitOk(w, c) && t in w.elections && c.term < t
    ensures AtLeast(w.elections[t].base, c.term, c.index) || Lost(w, c.term, c.index, t)
  {
    var q :| Majority(q, |w.peers|) && HeldByAll(w, q, c.term, c.index);
    assert ElectionOk(w, t);
    var f := Overlap(q, w.elections[t].voters, |w.peers|);
    var g, h := Grant(t, f, w.elections[t].leader), Held(c.term, f, c.index);
    assert g in w.grants && h in w.held;
    assert VoteAfterHeld(w, g, h);
  }

  lemma ElectedLog(w: World, t: nat)
    requires Shape(w) && Winners(w) && LogsOk(w) && t in w.elections
    ensures t in w.logs && t >= 1 && LogOk(w.logs, w.elections[t].base, t - 1) && w.elections[t].base <= w.logs[t]
  {
    assert ElectionOk(w, t) && LeaderLogOk(w, t);
  }

  /** What is known of the leader of `t` before asking about the leaders in between. */
  ghost predicate Informed(w: World, c: Commit, t: nat)
    requires c.term in w.logs && c.index < |w.logs[c.term]| && t in w.elections
  {
    && t in w.logs && t >= 1 && LogOk(w.logs, w.elections[t].base, t - 1) && w.elections[t].base <= w.logs[t]
    && (AtLeast(w.elections[t].base, c.term, c.index) || Lost(w, c.term, c.index, t))
  }

  /** The induction over terms behind Leader Completeness. */
  lemma {:induction false} NoLeaderLacks(w: World, c: Commit, t: nat)
    requires 1 <= c.term && c.term in w.logs && c.index < |w.logs[c.term]| && LogOk(w.logs, w.logs[c.term], c.term)
    requires forall s :: s in w.elections && c.term < s ==> Informed(w, c, s)
    requires w.logs.Keys == w.elections.Keys && t in w.elections && c.term < t
    ensures w.logs[c.term][..c.index + 1] <= w.elections[t].base
    decreases t
  {
    assert Informed(w, c, t);
    if Lost(w, c.term, c.index, t) {
      var s :| c.term < s < t && s in w.elections && !(w.logs[c.term][..c.index + 1] <= w.elections[s].base);
      NoLeaderLacks(w, c, s);
      assert false;
    }
    var last := LastTerm(w.elections[t].base);
    if last > c.term && last in w.logs {
      NoLeaderLacks(w, c, last);
      assert Informed(w, c, last);
    }
    LastEntryDecides(w.logs, w.elections[t].base, t - 1, c.term, c.index);
  }

  /** A committed entry, with everything before it, is in the log with which any leader of a later term is elected. */
  lemma LeaderCompleteness(w: World, c: Commit, t: nat)
    requires Shape(w) && Ballots(w) && Winners(w) && LogsOk(w) && Holding(w) && Voting(w)
    requires c in w.commits && CommitOk(w, c) && t in w.elections && c.term < t
    ensures w.logs[c.term][..c.index + 1] <= w.elections[t].base
  {
    forall s | s in w.elections && c.term < s ensures Informed(w, c, s) {
      CommonVoter(w, c, s);
      ElectedLog(w, s);
    }
    assert LeaderLogOk(w, c.term);
    NoLeaderLacks(w, c, t);
  }

  // ---------- Acknowledged entries stay ----------

  /** What acknowledged entries need of a step. */
  ghost predicate KeepsHeld(w: World, v: World) {
    && |v.peers| == |w.peers| && Extends(w.logs, v.logs)
    && (forall t :: t in w.elections ==> t in v.elections && v.elections[t] == w.elections[t])
    && (forall i :: 0 <= i < |w.peers| ==> w.peers[i].currentTerm <= v.peers[i].currentTerm)
  }

  lemma LostKept(w: World, v: World, from: nat, k: nat, to: nat, to': nat)
    requires KeepsHeld(w, v) && from in w.logs && k < |w.logs[from]| && Lost(w, from, k, to) && to <= to'
    ensures Lost(v, from, k, to')
  {
    var t :| from < t < to && t in w.elections && !(w.logs[from][..k + 1] <= w.elections[t].base);
    assert t in v.elections && v.logs[from][..k + 1] == w.logs[from][..k + 1];
  }

  /** A peer whose log only grew keeps what it acknowledged. */
  lemma HeldOkKept(w: World, v: World, h: Held)
    requires Shape(w) && Shape(v) && KeepsHeld(w, v) && HeldOk(w, h)
    requires w.peers[h.peer].log <= v.peers[h.peer].log
    ensures HeldOk(v, h)
  {
    if Lost(w, h.term, h.index, w.peers[h.peer].currentTerm + 1) {
      LostKept(w, v, h.term, h.index, w.peers[h.peer].currentTerm + 1, v.peers[h.peer].currentTerm + 1);
    }
  }

  lemma GrowingKeepsHolding(w: World, v: World)
    requires Shape(w) && Shape(v) && Holding(w) && KeepsHeld(w, v) && v.held == w.held
    requires forall i :: 0 <= i < |w.peers| ==> w.peers[i].log <= v.peers[i].log
    ensures Holding(v)
  {
    forall h | h in v.held ensures HeldOk(v, h) { HeldOkKept(w, v, h); }
  }

  /** Entries lost when `sent` replaces a log are not in the log that `sent` is part of. */
  lemma Displaced(entries: seq<LogEntry>, log: seq<LogEntry>, sent: seq<LogEntry>, lead: seq<LogEntry>)
    requires entries <= log && sent <= lead && !(sent <= log) && !(entries <= sent)
    ensures !(entries <= lead)
  {}

  /** A follower whose log is replaced by what the leader of a later term sent either keeps an
      acknowledged entry, or that leader was elected without it. */
  lemma ReplacedLog(w: World, v: World, m: Append, out: AppendOutcome, h: Held)
    requires Shape(w) && Shape(v) && LogsOk(w) && AppendStep(w, v, m, out) && HeldOk(w, h) && h.peer == m.to
    requires KeepsHeld(w, v)
    ensures HeldOk(v, h)
  {
    var p, t := w.peers[m.to], m.args.term;
    if Lost(w, h.term, h.index, p.currentTerm + 1) {
      LostKept(w, v, h.term, h.index, p.currentTerm + 1, t + 1);
    } else {
      ReplacedEntries(w, v, m, out, h);
      if Lost(w, h.term, h.index, t + 1) { LostKept(w, v, h.term, h.index, t + 1, t + 1); }
    }
  }

  lemma ReplacedEntries(w: World, v: World, m: Append, out: AppendOutcome, h: Held)
    requires Shape(w) && LogsOk(w) && AppendStep(w, v, m, out) && HeldOk(w, h) && h.peer == m.to
    requires w.logs[h.term][..h.index + 1] <= w.peers[m.to].log
    ensures w.logs[h.term][..h.index + 1] <= out.peer.log || Lost(w, h.term, h.index, m.args.term + 1)
  {
    var p, sent, t := w.peers[m.to], Sent(w, m), m.args.term;
    AppendForm(w, v, m, out);
    assert LeaderLogOk(w, t);
    if out.peer.log != p.log && !(w.logs[h.term][..h.index + 1] <= sent) {
      LosesEntries(w, t, h, p.log, sent);
    }
  }

  lemma LosesEntries(w: World, t: nat, h: Held, log: seq<LogEntry>, sent: seq<LogEntry>)
    requires h.term in w.logs && h.index < |w.logs[h.term]| && t in w.logs && t in w.elections && h.term <= t
    requires w.elections[t].base <= w.logs[t] && sent <= w.logs[t] && !(sent <= log)
    requires var entries := w.logs[h.term][..h.index + 1]; entries <= log && !(entries <= sent)
    ensures Lost(w, h.term, h.index, t + 1)
  {
    var entries := w.logs[h.term][..h.index + 1];
    Displaced(entries, log, sent, w.logs[t]);
    assert h.term < t < t + 1 && t in w.elections && !(w.logs[h.term][..h.index + 1] <= w.elections[t].base);
  }

  lemma AppendStepKeepsHolding(w: World, v: World, m: Append, out: AppendOutcome)
    requires Shape(w) && Shape(v) && LogsOk(w) && Holding(w) && AppendStep(w, v, m, out)
    ensures Holding(v)
  {
    assert PeerLogOk(w, m.to) && LeaderLogOk(w, m.args.term);
    forall h | h in v.held ensures HeldOk(v, h) {
      if h in w.held {
        assert HeldOk(w, h);
        if h.peer == m.to {
          ReplacedLog(w, v, m, out, h);
        } else {
          HeldOkKept(w, v, h);
        }
      } else {
        HonestLog(w, v, m, out);
        assert v.logs[h.term][..h.index + 1] <= out.peer.log;
      }
    }
  }

  lemma AcknowledgedKeepsHolding(w: World, v: World, a: Ack, out: CommitOutcome)
    requires Shape(w) && Shape(v) && LogsOk(w) && Traffic(w) && Holding(w) && a in w.acks && Acknowledged(w, v, a, out)
    ensures Holding(v)
  {
    assert AckOk(w, a) && PeerLogOk(w, a.leader);
    forall h | h in v.held ensures HeldOk(v, h) {
      if h in w.held { HeldOkKept(w, v, h); }
    }
  }

  // ---------- Votes after acknowledgements ----------

  /** A vote and an acknowledgement of the past stay in order. */
  lemma VoteKept(w: World, v: World, g: Grant, h: Held)
    requires Shape(w) && Shape(v) && KeepsHeld(w, v) && HeldOk(w, h) && GrantOk(w, g) && HeldOk(v, h) && GrantOk(v, g)
    requires v.candLogs[Candidacy(g.term, g.cand)] == w.candLogs[Candidacy(g.term, g.cand)]
    requires VoteAfterHeld(w, g, h)
    ensures VoteAfterHeld(v, g, h)
  {
    if Lost(w, h.term, h.index, g.term) {
      LostKept(w, v, h.term, h.index, g.term, g.term);
    }
  }

  /** A peer that votes shows its log: a candidate at least as up to date has what the voter acknowledged. */
  lemma NewVote(w: World, v: World, g: Grant, h: Held)
    requires Shape(w) && Shape(v) && LogsOk(w) && HeldOk(w, h) && h.peer == g.voter && g.voter < |w.peers|
    requires v.logs == w.logs && v.elections == w.elections && HeldOk(v, h) && GrantOk(v, g)
    requires w.peers[g.voter].currentTerm < g.term || (w.peers[g.voter].currentTerm == g.term && g.term !in w.elections)
    requires var cand := v.candLogs[Candidacy(g.term, g.cand)]; var log := w.peers[g.voter].log;
      LastTerm(cand) > LastTerm(log) || (LastTerm(cand) == LastTerm(log) && |cand| >= |log|)
    ensures VoteAfterHeld(v, g, h)
  {
    var log := w.peers[g.voter].log;
    if w.logs[h.term][..h.index + 1] <= log && w.logs[h.term][h.index].term == h.term {
      var last := |log| - 1;
      assert PeerLogOk(w, g.voter);
      assert log[h.index] == w.logs[h.term][..h.index + 1][h.index];
      if 1 <= last { assert EntryOk(w.logs, log, last); }
      assert log[last].term in w.logs ==> LeaderLogOk(w, log[last].term);
      Sorted(w.logs, log, w.peers[g.voter].currentTerm, h.index, last);
    } else if Lost(w, h.term, h.index, w.peers[g.voter].currentTerm + 1) {
      var t :| h.term < t < w.peers[g.voter].currentTerm + 1 && t in w.elections
               && !(w.logs[h.term][..h.index + 1] <= w.elections[t].base);
      assert h.term < t < g.term && t in v.elections;
    }
  }
}
