/** What holds of every run of the bank. */
module BankTheorems {
  import opened Runs
  import opened BankBranch
  import opened BankSerial
  import opened BankWorld
  import opened BankSafety

  ghost predicate Next(w: World, v: World) {
    exists step :: Enabled(w, step) && v == After(w, step)
  }

  ghost predicate Run(ws: seq<World>, branches: set<Branch>) {
    Steps(ws, Init(branches), Next)
  }

  lemma NextKeepsInv(w: World, v: World)
    requires Inv(w) && Next(w, v)
    ensures Inv(v)
  {
    var step :| Enabled(w, step) && v == After(w, step);
    StepKeepsInv(w, step);
  }

  lemma {:induction false} RunInv(ws: seq<World>, branches: set<Branch>, i: nat)
    requires Run(ws, branches) && i < |ws|
    ensures Inv(ws[i])
  {
    if i == 0 {
      InitInv(branches);
    } else {
      RunInv(ws, branches, i - 1);
      StepAt(ws, Init(branches), Next, i - 1);
      NextKeepsInv(ws[i - 1], ws[i]);
    }
  }

  /** Where a run stands before a step, and that it is one. */
  lemma NextOf(ws: seq<World>, branches: set<Branch>, i: nat)
    requires Run(ws, branches) && i + 1 < |ws|
    ensures Inv(ws[i]) && Next(ws[i], ws[i + 1])
  {
    RunInv(ws, branches, i);
    StepAt(ws, Init(branches), Next, i);
  }

  // ---------- Locks ----------

  /** In every reachable state the two lock tables of a branch mirror each other, a writer is alone, the
      reader count covers all readers, and whatever a transaction has changed it has write-locked. */
  lemma LockTable(ws: seq<World>, branches: set<Branch>, i: nat, b: Branch, a: Account, t: Tid)
    requires Run(ws, branches) && i < |ws| && b in ws[i].apps && a in ws[i].apps[b].locks
    ensures var app := ws[i].apps[b]; var l := app.locks[a];
      && (t in l.tids <==> Holds(app, t, a)) && (t in l.tids ==> app.txLockInfo[t][a] == l.tids[t])
      && (l.writer ==> l.readers == 0 && exists u :: l.tids == map[u := false])
      && (!l.writer ==> l.readers >= |l.tids| && forall u :: u in l.tids ==> l.tids[u])
    ensures var app := ws[i].apps[b]; t in app.cache && a in app.cache[t] ==> Writes(app, t, a)
  {
    RunInv(ws, branches, i);
    var app := ws[i].apps[b];
    var l := app.locks[a];
    assert TableOk(app);
    assert LockAt(app, a) && Mirrored(app, t, a);
    assert t in app.cache && a in app.cache[t] ==> Writes(app, t, a);
    if l.writer {
      var u :| u in l.tids;
      assert l.tids == map[u := false];
    }
  }

  // ---------- Two-phase commit ----------

  /** A branch applies a transaction only if every branch involved has agreed. */
  lemma AppliedOnlyIfAllAgreed(ws: seq<World>, branches: set<Branch>, i: nat, key: Key)
    requires Run(ws, branches) && i < |ws| && key in ws[i].done && ws[i].done[key]
    ensures key.tid in ws[i].txs && ws[i].txs[key.tid].phase.Committed?
    ensures key.branch in ws[i].txs[key.tid].related && ws[i].txs[key.tid].yes == ws[i].txs[key.tid].related
  {
    RunInv(ws, branches, i);
    assert TxOk(ws[i], key.tid) && key == Key(key.tid, key.branch);
  }

  lemma NextDone(w: World, v: World, key: Key)
    requires Inv(w) && Next(w, v) && key in w.done
    ensures key in v.done && v.done[key] == w.done[key]
  {
    var step :| Enabled(w, step) && v == After(w, step);
    StepDone(w, step, key);
  }

  lemma StepDone(w: World, step: Step, key: Key)
    requires Inv(w) && Enabled(w, step) && key in w.done
    ensures key in After(w, step).done && After(w, step).done[key] == w.done[key]
  {
    assert TxOk(w, key.tid) && key == Key(key.tid, key.branch) && OrdersOk(w, key.tid);
  }

  lemma DoneNext(ws: seq<World>, branches: set<Branch>, i: nat, key: Key)
    requires Run(ws, branches) && i + 1 < |ws| && key in ws[i].done
    ensures key in ws[i + 1].done && ws[i + 1].done[key] == ws[i].done[key]
  {
    NextOf(ws, branches, i);
    NextDone(ws[i], ws[i + 1], key);
  }

  lemma {:induction false} DoneStays(ws: seq<World>, branches: set<Branch>, i: nat, j: nat, key: Key)
    requires Run(ws, branches) && i <= j < |ws| && key in ws[i].done
    ensures key in ws[j].done && ws[j].done[key] == ws[i].done[key]
    decreases j
  {
    if i < j {
      DoneStays(ws, branches, i, j - 1, key);
      DoneNext(ws, branches, j - 1, key);
    }
  }

  /** No transaction is ever applied at one branch and discarded at another. */
  lemma Atomicity(ws: seq<World>, branches: set<Branch>, i: nat, j: nat, t: Tid, b: Branch, c: Branch)
    requires Run(ws, branches) && i < |ws| && j < |ws| && Key(t, b) in ws[i].done && Key(t, c) in ws[j].done
    ensures ws[i].done[Key(t, b)] == ws[j].done[Key(t, c)]
  {
    var n := if i <= j then j else i;
    DoneStays(ws, branches, i, n, Key(t, b));
    DoneStays(ws, branches, j, n, Key(t, c));
    RunInv(ws, branches, n);
    assert TxOk(ws[n], t) && OrdersOk(ws[n], t);
  }

  // ---------- Balances ----------

  /** No committed balance is ever negative. */
  lemma NeverNegative(ws: seq<World>, branches: set<Branch>, i: nat, b: Branch, a: Account)
    requires Run(ws, branches) && i < |ws| && b in ws[i].apps && a in ws[i].apps[b].committed
    ensures ws[i].apps[b].committed[a] >= 0
  {
    RunInv(ws, branches, i);
    assert NonNegative(ws[i].apps[b]);
    assert Get(ws[i].apps[b].committed, a) >= 0;
  }

  lemma SerialBalanceOk(w: World, k: (Branch, Account))
    requires Inv(w) && k in Replay(w.decided)
    ensures k.0 in w.apps && Replay(w.decided)[k] >= 0
  {
    var b, a := k.0, k.1;
    assert Simulated(w, b, a) && NonNegative(w.apps[b]) && TableOk(w.apps[b]);
    assert Get(w.apps[b].committed, a) >= 0;
    if exists t :: Changes(w, t, b, a) {
      var t :| Changes(w, t, b, a);
      assert TxOk(w, t) && CacheOk(w, t, b) && VotingOk(w, t);
      assert Sound(w, t, b) && Writes(w.apps[b], t, a);
      assert a in LocksOf(w.apps[b], t);
    }
  }

  /** Nor is a balance of the serial bank after any of the transactions decided so far. */
  lemma SerialNonNegative(ws: seq<World>, branches: set<Branch>, i: nat, k: (Branch, Account))
    requires Run(ws, branches) && i < |ws| && k in Replay(ws[i].decided)
    ensures k.0 in ws[i].apps && Replay(ws[i].decided)[k] >= 0
  {
    RunInv(ws, branches, i);
    SerialBalanceOk(ws[i], k);
  }

  /** Once everything decided has been applied at a branch, its balances are those of the serial bank. */
  lemma FinalBalances(ws: seq<World>, branches: set<Branch>, i: nat, b: Branch, a: Account)
    requires Run(ws, branches) && i < |ws| && b in ws[i].apps
    requires forall t :: t in ws[i].txs && ws[i].txs[t].phase.Committed? && b in ws[i].txs[t].related ==>
        Key(t, b) in ws[i].done
    ensures var serial := Replay(ws[i].decided); var committed := ws[i].apps[b].committed;
      ((b, a) in serial <==> a in committed) && (a in committed ==> serial[(b, a)] == committed[a])
  {
    RunInv(ws, branches, i);
    var w := ws[i];
    assert Simulated(w, b, a);
    forall t ensures !Changes(w, t, b, a) {
      if t in w.txs { assert TxOk(w, t) && CacheOk(w, t, b); }
    }
  }

  /** At any moment a branch differs from the serial bank, at an account, by the changes of at most one
      transaction: one that is decided and has yet to be applied there. */
  lemma BalancesInFlight(ws: seq<World>, branches: set<Branch>, i: nat, b: Branch, a: Account, t: Tid)
    requires Run(ws, branches) && i < |ws| && b in ws[i].apps && Changes(ws[i], t, b, a)
    ensures var serial := Replay(ws[i].decided); var app := ws[i].apps[b];
      (b, a) in serial && serial[(b, a)] == Get(app.committed, a) + app.cache[t][a]
    ensures forall u :: Changes(ws[i], u, b, a) ==> u == t
  {
    RunInv(ws, branches, i);
    var w := ws[i];
    assert Simulated(w, b, a) && TableOk(w.apps[b]);
    forall u | Changes(w, u, b, a) ensures u == t {
      assert Writes(w.apps[b], u, a) && Writes(w.apps[b], t, a);
      WriterIsAlone(w.apps[b], u, t, a);
    }
  }

  // ---------- Serializability ----------

  lemma ReplyIsSerial(w: World, t: Tid, i: nat)
    requires Inv(w) && t in w.txs && Deciding(w.txs[t].phase)
    requires i < |w.txs[t].ops| && UnderLastLock(w.txs[t].ops, i)
    ensures w.txs[t].ops[i].answer == SerialReply(Replay(w.decided), w.txs[t].ops, i)
  {
    WritesFit(w, t);
    ReplyFits(w, t, i);
    ReplyIsAnswer(Replay(w.decided), w.txs[t].ops, i);
  }

  /** When a transaction is about to be decided, for or against, every reply it has been given under a lock
      it still holds is the one the serial bank would give if it ran the transaction now. */
  lemma RepliesAreSerial(ws: seq<World>, branches: set<Branch>, j: nat, t: Tid, i: nat)
    requires Run(ws, branches) && j < |ws| && t in ws[j].txs && Deciding(ws[j].txs[t].phase)
    requires i < |ws[j].txs[t].ops| && UnderLastLock(ws[j].txs[t].ops, i)
    ensures ws[j].txs[t].ops[i].answer == SerialReply(Replay(ws[j].decided), ws[j].txs[t].ops, i)
  {
    RunInv(ws, branches, j);
    ReplyIsSerial(ws[j], t, i);
  }

  /** In particular the NOT FOUND reply that refuses a transaction. */
  lemma NotFoundIsSerial(ws: seq<World>, branches: set<Branch>, j: nat, t: Tid)
    requires Run(ws, branches) && j < |ws| && t in ws[j].txs && ws[j].txs[t].phase.Refused?
    ensures var ops := ws[j].txs[t].ops;
      && |ops| > 0 && ops[|ops| - 1].answer.NotFound?
      && SerialReply(Replay(ws[j].decided), ops, |ops| - 1).NotFound?
  {
    RunInv(ws, branches, j);
    assert TxOk(ws[j], t);
    var ops := ws[j].txs[t].ops;
    var i := |ops| - 1;
    assert UnderLastLock(ops, i) by {
      if !IsRead(ops[i].command) {
        assert SameAccount(ops[i], ops[i]);
      } else if !(forall k :: 0 <= k < |ops| && SameAccount(ops[k], ops[i]) ==> IsRead(ops[k].command)) {
        var k :| 0 <= k < |ops| && SameAccount(ops[k], ops[i]) && !IsRead(ops[k].command);
        assert k <= i;
      }
    }
    ReplyIsSerial(ws[j], t, i);
  }

  /** A branch agrees to commit exactly when running the transaction serially would leave it no negative balance. */
  lemma VoteIsSerial(ws: seq<World>, branches: set<Branch>, j: nat, t: Tid, b: Branch)
    requires Run(ws, branches) && j < |ws| && t in ws[j].txs && ws[j].txs[t].phase.Preparing? && b in ws[j].apps
    ensures var after := Replay(ws[j].decided + [ws[j].txs[t].ops]);
      BankBranch.CanCommit(ws[j].apps[b], t) <==> forall a :: (b, a) in after ==> after[(b, a)] >= 0
  {
    RunInv(ws, branches, j);
    var w := ws[j];
    var app, after := w.apps[b], Replay(w.decided + [w.txs[t].ops]);
    assert TableOk(app);
    if BankBranch.CanCommit(app, t) {
      forall a | (b, a) in after ensures after[(b, a)] >= 0 {
        SerialAfter(w, t, b, a);
        if a in CacheOf(app, t) {
          assert Writes(app, t, a);
          LockedIsSerial(w, t, b, a);
          assert a in LocksOf(app, t);
        } else {
          SerialBalanceOk(w, (b, a));
        }
      }
    }
    if forall a :: (b, a) in after ==> after[(b, a)] >= 0 {
      forall a | a in LocksOf(app, t) ensures Get(app.committed, a) + Get(CacheOf(app, t), a) >= 0 {
        assert Holds(app, t, a);
        LockedIsSerial(w, t, b, a);
        SerialAfter(w, t, b, a);
      }
    }
  }

  /** The replies of the k-th decided transaction are those of the serial bank after the k before it. */
  ghost predicate RepliesFit(decided: seq<seq<Op>>, k: nat)
    requires k < |decided|
  {
    forall i {:trigger UnderLastLock(decided[k], i)} :: 0 <= i < |decided[k]| && UnderLastLock(decided[k], i) ==>
      decided[k][i].answer == SerialReply(Replay(decided[..k]), decided[k], i)
  }

  /** A step decides one transaction at most. */
  lemma NextDecided(w: World, step: Step)
    requires Enabled(w, step)
    ensures After(w, step).decided == if step.Decide? then w.decided + [w.txs[step.t].ops] else w.decided
  {}

  lemma NewlyFit(w: World, t: Tid)
    requires Inv(w) && Enabled(w, Decide(t))
    ensures RepliesFit(w.decided + [w.txs[t].ops], |w.decided|)
  {
    var decided, k := w.decided + [w.txs[t].ops], |w.decided|;
    assert decided[..k] == w.decided;
    forall i | 0 <= i < |decided[k]| && UnderLastLock(decided[k], i)
      ensures decided[k][i].answer == SerialReply(Replay(decided[..k]), decided[k], i)
    {
      ReplyIsSerial(w, t, i);
    }
  }

  lemma StillFit(decided: seq<seq<Op>>, ops: seq<Op>, k: nat)
    requires k < |decided| && RepliesFit(decided, k)
    ensures RepliesFit(decided + [ops], k)
  {
    assert (decided + [ops])[..k] == decided[..k];
  }

  lemma NextFits(w: World, v: World, k: nat)
    requires Inv(w) && Next(w, v) && k < |v.decided|
    requires k < |w.decided| ==> RepliesFit(w.decided, k)
    ensures RepliesFit(v.decided, k)
  {
    var step :| Enabled(w, step) && v == After(w, step);
    NextDecided(w, step);
    if k < |w.decided| {
      if step.Decide? { StillFit(w.decided, w.txs[step.t].ops, k); }
    } else {
      NewlyFit(w, step.t);
    }
  }

  /** Serializability: running the committed transactions one after the other, in the order in which their
      coordinators decided, gives each of them the replies it got (but for reads made before a lock upgrade). */
  lemma {:induction false} Serializability(ws: seq<World>, branches: set<Branch>, j: nat, k: nat)
    requires Run(ws, branches) && j < |ws| && k < |ws[j].decided|
    ensures RepliesFit(ws[j].decided, k)
  {
    if j > 0 {
      if k < |ws[j - 1].decided| { Serializability(ws, branches, j - 1, k); }
      NextOf(ws, branches, j - 1);
      NextFits(ws[j - 1], ws[j], k);
    }
  }
}
