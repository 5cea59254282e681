/** The invariant of the bank is kept by every step. Transactions that do not act are dealt with once, for
    all steps. Then come the steps that touch no branch, the commands with the locks they ask for, the
    decisions of coordinators, and the calls that apply or discard a transaction at a branch. */
module BankSafety {
  import opened BankBranch
  import opened BankSerial
  import opened BankWorld

  // ---------- Transactions that do not act ----------

  ghost predicate SameCalls(w: World, v: World, t: Tid) {
    forall b {:trigger Key(t, b)} ::
      && (Key(t, b) in w.votes <==> Key(t, b) in v.votes)
      && (Key(t, b) in w.votes ==> v.votes[Key(t, b)] == w.votes[Key(t, b)])
      && (Key(t, b) in w.orders <==> Key(t, b) in v.orders)
      && (Key(t, b) in w.orders ==> v.orders[Key(t, b)] == w.orders[Key(t, b)])
      && (Key(t, b) in w.done <==> Key(t, b) in v.done)
      && (Key(t, b) in w.done ==> v.done[Key(t, b)] == w.done[Key(t, b)])
  }

  /** Nothing a transaction can see has changed anywhere. */
  ghost predicate Unseen(w: World, v: World, t: Tid) {
    && v.apps.Keys == w.apps.Keys
    && (forall b {:trigger Undisturbed(w.apps[b], v.apps[b], t)} :: b in w.apps ==>
        Undisturbed(w.apps[b], v.apps[b], t))
    && SameCalls(w, v, t)
  }

  lemma SoundKept(w: World, v: World, t: Tid, b: Branch)
    requires b in w.apps && b in v.apps && Undisturbed(w.apps[b], v.apps[b], t) && Sound(w, t, b)
    ensures Sound(v, t, b)
  {
    var app := w.apps[b];
    forall a | a in LocksOf(v.apps[b], t) ensures Get(v.apps[b].committed, a) + Get(CacheOf(v.apps[b], t), a) >= 0 {
      assert Holds(app, t, a);
    }
  }

  lemma OpOkKept(w: World, v: World, t: Tid, i: nat)
    requires t in w.txs && t in v.txs && w.txs[t] == v.txs[t] && i < |w.txs[t].ops|
    requires var b := w.txs[t].ops[i].branch; b in w.apps && b in v.apps && Undisturbed(w.apps[b], v.apps[b], t)
    requires OpOk(w, t, i)
    ensures OpOk(v, t, i)
  {
    var op := w.txs[t].ops[i];
    var app, app' := w.apps[op.branch], v.apps[op.branch];
    assert LocksOf(app, t) == LocksOf(app', t);
    assert Holds(app, t, op.account) <==> Holds(app', t, op.account);
  }

  lemma BystanderOk(w: World, v: World, t: Tid)
    requires t in w.txs && t in v.txs && v.txs[t] == w.txs[t] && TxOk(w, t) && Unseen(w, v, t)
    ensures TxOk(v, t)
  {
    var tx := w.txs[t];
    forall b | b in v.apps ensures CacheOk(v, t, b) {
      assert CacheOk(w, t, b) && Undisturbed(w.apps[b], v.apps[b], t);
    }
    if !Finished(tx.phase) {
      forall i | 0 <= i < |tx.ops| ensures OpOk(v, t, i) {
        assert OpOk(w, t, i) && Undisturbed(w.apps[tx.ops[i].branch], v.apps[tx.ops[i].branch], t);
        OpOkKept(w, v, t, i);
      }
    }
    if tx.phase.Blocked? {
      var b := tx.phase.branch;
      assert Undisturbed(w.apps[b], v.apps[b], t);
      assert LocksOf(w.apps[b], t) == LocksOf(v.apps[b], t);
    }
    forall b | b in w.apps && Sound(w, t, b) ensures Sound(v, t, b) {
      assert Undisturbed(w.apps[b], v.apps[b], t);
      SoundKept(w, v, t, b);
    }
  }

  // ---------- Steps that touch no branch ----------

  /** Only transaction `t` and calls made for it differ. */
  ghost predicate OnlyCalls(w: World, v: World, t: Tid) {
    && v.apps == w.apps && t in v.txs && v.txs == w.txs[t := v.txs[t]]
    && (forall u {:trigger SameCalls(w, v, u)} :: u != t ==> SameCalls(w, v, u))
    && (forall key :: key in v.votes || key in v.orders || key in v.done ==> key.tid in v.txs)
  }

  lemma CallsKeepTxs(w: World, v: World, t: Tid)
    requires Inv(w) && OnlyCalls(w, v, t) && TxOk(v, t)
    ensures forall u {:trigger TxOk(v, u)} :: u in v.txs ==> TxOk(v, u)
  {
    forall u | u in v.txs && u != t ensures TxOk(v, u) {
      assert TxOk(w, u) && SameCalls(w, v, u);
      BystanderOk(w, v, u);
    }
  }

  lemma CallsKeepInv(w: World, v: World, t: Tid)
    requires Inv(w) && OnlyCalls(w, v, t) && TxOk(v, t) && v.decided == w.decided
    requires v.txs[t].phase.Committed? ==> t in w.txs && w.txs[t].phase.Committed?
    requires t in w.txs && w.txs[t].phase.Committed? ==> v.txs[t].phase.Committed?
    ensures Inv(v)
  {
    CallsKeepTxs(w, v, t);
    forall b, a | b in v.apps ensures Simulated(v, b, a) {
      assert Simulated(w, b, a);
      forall u ensures Changes(v, u, b, a) <==> Changes(w, u, b, a) {}
    }
  }

  lemma BeginKeepsInv(w: World, t: Tid)
    requires Inv(w) && Enabled(w, Begin(t))
    ensures Inv(After(w, Begin(t)))
  {
    var v := After(w, Begin(t));
    forall b | b in v.apps ensures CacheOk(v, t, b) {}
    CallsKeepInv(w, v, t);
  }

  /** What a transaction has done at the branches is untouched. */
  ghost predicate SameWork(w: World, v: World, t: Tid) {
    && v.apps == w.apps && v.done == w.done && t in w.txs && t in v.txs
    && v.txs[t].ops == w.txs[t].ops && v.txs[t].related == w.txs[t].related
    && !w.txs[t].phase.Blocked? && !v.txs[t].phase.Blocked?
  }

  lemma WorkKept(w: World, v: World, t: Tid)
    requires SameWork(w, v, t) && TxOk(w, t) && (!Finished(v.txs[t].phase) ==> !Finished(w.txs[t].phase))
    ensures forall b {:trigger CacheOk(v, t, b)} :: b in v.apps ==> CacheOk(v, t, b)
    ensures forall i :: 0 <= i < |v.txs[t].ops| ==> v.txs[t].ops[i].branch in v.txs[t].related
    ensures forall i :: 0 <= i < |v.txs[t].ops| ==> v.txs[t].ops[i].branch in v.apps
    ensures !Finished(v.txs[t].phase) ==> forall i {:trigger OpOk(v, t, i)} :: 0 <= i < |v.txs[t].ops| ==> OpOk(v, t, i)
  {
    forall b | b in v.apps ensures CacheOk(v, t, b) { assert CacheOk(w, t, b); }
    forall i | 0 <= i < |v.txs[t].ops| && !Finished(v.txs[t].phase) ensures OpOk(v, t, i) { assert OpOk(w, t, i); }
  }

  lemma AbortOk(w: World, w': World, t: Tid)
    requires t in w.txs && TxOk(w, t) && !Finished(w.txs[t].phase) && !w.txs[t].phase.Blocked?
    requires w' == w.(votes := w'.votes) && forall key :: key in w'.votes ==>
        key in w.votes && w'.votes[key] == w.votes[key]
    ensures TxOk(Abort(w', t), t)
  {
    WorkKept(w, Abort(w', t), t);
  }

  lemma AbortKeepsInv(w: World, w': World, t: Tid)
    requires Inv(w) && t in w.txs && !Finished(w.txs[t].phase) && !w.txs[t].phase.Blocked?
    requires w' == w.(votes := w'.votes) && forall key :: key in w'.votes ==>
        key in w.votes && w'.votes[key] == w.votes[key]
    requires forall key :: key in w.votes && key !in w'.votes ==> key.tid == t
    ensures Inv(Abort(w', t))
  {
    assert TxOk(w, t);
    AbortOk(w, w', t);
    AbortOnly(w, w', t);
    CallsKeepInv(w, Abort(w', t), t);
  }

  lemma AbortOnly(w: World, w': World, t: Tid)
    requires t in w.txs && forall key :: key in w.votes || key in w.orders || key in w.done ==> key.tid in w.txs
    requires w' == w.(votes := w'.votes) && forall key :: key in w'.votes ==>
        key in w.votes && w'.votes[key] == w.votes[key]
    requires forall key :: key in w.votes && key !in w'.votes ==> key.tid == t
    ensures OnlyCalls(w, Abort(w', t), t)
  {}

  lemma AskCommitKeepsInv(w: World, t: Tid)
    requires Inv(w) && Enabled(w, AskCommit(t))
    ensures Inv(After(w, AskCommit(t)))
  {
    var v := After(w, AskCommit(t));
    assert TxOk(w, t);
    WorkKept(w, v, t);
    CallsKeepInv(w, v, t);
  }

  lemma PrepareOk(w: World, key: Key)
    requires key.tid in w.txs && TxOk(w, key.tid) && !w.txs[key.tid].phase.Blocked? && Enabled(w, Prepare(key))
    ensures TxOk(After(w, Prepare(key)), key.tid)
  {
    var v := After(w, Prepare(key));
    WorkKept(w, v, key.tid);
    forall b | b in v.apps ensures Sound(v, key.tid, b) <==> Sound(w, key.tid, b) {}
  }

  lemma PrepareKeepsInv(w: World, key: Key)
    requires Inv(w) && Enabled(w, Prepare(key))
    ensures Inv(After(w, Prepare(key)))
  {
    var t := key.tid;
    assert TxOk(w, t) && key == Key(t, key.branch);
    PrepareOk(w, key);
    CallsKeepInv(w, After(w, Prepare(key)), t);
  }

  lemma CountedOk(w: World, key: Key)
    requires Enabled(w, CountVote(key)) && TxOk(w, key.tid) && w.votes[key].yes
    ensures TxOk(After(w, CountVote(key)), key.tid)
  {
    var v := After(w, CountVote(key));
    assert key == Key(key.tid, key.branch);
    WorkKept(w, v, key.tid);
    forall b | b in v.apps ensures Sound(v, key.tid, b) <==> Sound(w, key.tid, b) {}
  }

  lemma CountedOnly(w: World, key: Key)
    requires Enabled(w, CountVote(key)) && w.votes[key].yes
    requires forall key :: key in w.votes || key in w.orders || key in w.done ==> key.tid in w.txs
    ensures OnlyCalls(w, After(w, CountVote(key)), key.tid)
  {}

  lemma CountVoteKeepsInv(w: World, key: Key)
    requires Inv(w) && Enabled(w, CountVote(key))
    ensures Inv(After(w, CountVote(key)))
  {
    assert TxOk(w, key.tid);
    if w.votes[key].yes {
      CountedOk(w, key);
      CountedOnly(w, key);
      CallsKeepInv(w, After(w, CountVote(key)), key.tid);
    } else {
      AbortKeepsInv(w, w.(votes := w.votes - {key}), key.tid);
    }
  }

  // ---------- Commands ----------

  /** At branch `b`, transaction `t` runs a command or starts to wait for its lock. */
  ghost predicate Local(w: World, v: World, t: Tid, b: Branch) {
    && t in w.txs && t in v.txs && b in w.apps && v.apps.Keys == w.apps.Keys
    && v == w.(apps := w.apps[b := v.apps[b]], txs := w.txs[t := v.txs[t]])
    && v.apps[b].committed == w.apps[b].committed
    && (forall u {:trigger Undisturbed(w.apps[b], v.apps[b], u)} :: u != t ==> Undisturbed(w.apps[b], v.apps[b], u))
    && !Finished(w.txs[t].phase) && !Finished(v.txs[t].phase)
  }

  lemma LocalKeepsTxs(w: World, v: World, t: Tid, b: Branch)
    requires Inv(w) && Local(w, v, t, b) && TxOk(v, t)
    ensures forall u {:trigger TxOk(v, u)} :: u in v.txs ==> TxOk(v, u)
    ensures forall b', u :: b' in v.apps && u in v.apps[b'].cache ==> u in v.txs
  {
    forall u | u in v.txs && u != t ensures TxOk(v, u) {
      assert TxOk(w, u);
      assert Undisturbed(w.apps[b], v.apps[b], u);
      BystanderOk(w, v, u);
    }
    forall b', u | b' in v.apps && u in v.apps[b'].cache ensures u in v.txs {
      assert u != t ==> Undisturbed(w.apps[b], v.apps[b], u);
      assert b' == b || v.apps[b'] == w.apps[b'];
    }
  }

  lemma LocalKeepsInv(w: World, v: World, t: Tid, b: Branch)
    requires Inv(w) && Local(w, v, t, b) && TxOk(v, t) && TableOk(v.apps[b])
    ensures Inv(v)
  {
    LocalKeepsTxs(w, v, t, b);
    assert NonNegative(w.apps[b]);
    assert forall a :: Get(v.apps[b].committed, a) == Get(w.apps[b].committed, a);
    forall b', a | b' in v.apps ensures Simulated(v, b', a) { LocalSimulated(w, v, t, b, b', a); }
  }

  lemma LocalSimulated(w: World, v: World, t: Tid, b: Branch, b': Branch, a: Account)
    requires Inv(w) && Local(w, v, t, b) && TxOk(v, t) && b' in v.apps
    ensures Simulated(v, b', a)
  {
    assert Simulated(w, b', a);
    forall u ensures Changes(v, u, b', a) <==> Changes(w, u, b', a) {
      assert u != t ==> Undisturbed(w.apps[b], v.apps[b], u);
    }
    forall u | Changes(v, u, b', a) ensures v.apps[b'].cache[u][a] == w.apps[b'].cache[u][a] {
      assert Changes(w, u, b', a) && Undisturbed(w.apps[b], v.apps[b], u);
    }
  }

  ghost predicate SameCache(app: App, app': App, t: Tid) {
    t in app'.cache && CacheOf(app', t) == CacheOf(app, t)
  }

  /** The locks of `t` but possibly the one on `a` are kept, and the balances. */
  ghost predicate KeepsLocks(app: App, app': App, t: Tid, a: Account) {
    && app'.committed == app.committed
    && (forall x {:trigger Holds(app, t, x)} :: x != a && Holds(app, t, x) ==>
          Holds(app', t, x) && (Writes(app, t, x) ==> Writes(app', t, x)))
  }

  lemma CachesAfterCommand(w: World, v: World, t: Tid, b: Branch)
    requires Local(w, v, t, b) && TxOk(w, t) && t in v.apps[b].cache
    requires v.txs[t].related == w.txs[t].related + {b}
    requires forall b' :: b' != b ==> Deltas(v.txs[t].ops, b') == Deltas(w.txs[t].ops, b')
    requires CacheOf(v.apps[b], t) == Deltas(v.txs[t].ops, b)
    ensures forall b' {:trigger CacheOk(v, t, b')} :: b' in v.apps ==> CacheOk(v, t, b')
  {
    forall b' | b' in v.apps ensures CacheOk(v, t, b') { assert CacheOk(w, t, b'); }
  }

  lemma OldOpsOk(w: World, v: World, t: Tid, b: Branch, a: Account, i: nat)
    requires Local(w, v, t, b) && TxOk(w, t) && i < |w.txs[t].ops| <= |v.txs[t].ops|
      && KeepsLocks(w.apps[b], v.apps[b], t, a)
    requires w.txs[t].ops <= v.txs[t].ops && w.txs[t].ops[i].branch in w.apps
    requires !SameAccount(w.txs[t].ops[i], Op(b, a, Balance, Done))
    requires w.txs[t].phase.Blocked? ==> w.txs[t].phase.branch == b && w.txs[t].phase.account == a
    requires v.txs[t].phase.Blocked? ==> v.txs[t].phase.branch == b && v.txs[t].phase.account == a
    ensures OpOk(v, t, i)
  {
    var ops, ops' := w.txs[t].ops, v.txs[t].ops;
    assert OpOk(w, t, i) && ops'[..i] == ops[..i] && ops'[i] == ops[i];
    assert Holds(w.apps[ops[i].branch], t, ops[i].account);
    assert UnderLastLock(ops', i) ==> UnderLastLock(ops, i) by { Earlier(ops, ops', i); }
  }

  /** More commands can only take a reply out of those that must be serial. */
  lemma Earlier(ops: seq<Op>, more: seq<Op>, i: nat)
    requires ops <= more && i < |ops|
    ensures UnderLastLock(more, i) ==> UnderLastLock(ops, i)
  {
    if UnderLastLock(more, i) {
      if j :| 0 <= j <= i && SameAccount(more[j], more[i]) && !IsRead(more[j].command) {
        assert SameAccount(ops[j], ops[i]) && !IsRead(ops[j].command);
      } else {
        forall j | 0 <= j < |ops| && SameAccount(ops[j], ops[i]) ensures IsRead(ops[j].command) {
          assert SameAccount(more[j], more[i]);
        }
      }
    }
  }

  /** The lock on `a` lets `t` run command `c` on the branch state `app`, reached from `old`. */
  ghost predicate Ready(before: App, app: App, t: Tid, a: Account, c: Command) {
    && KeepsLocks(before, app, t, a) && SameCache(before, app, t) && Holds(app, t, a)
    && (!IsRead(c) || Writes(before, t, a) ==> Writes(app, t, a))
  }

  /** `v` is `w` after transaction `t` has run command `c` on branch state `app`. */
  ghost predicate Ran(w: World, v: World, t: Tid, b: Branch, a: Account, c: Command, app: App)
    requires t in w.txs && b in w.apps
  {
    var tx, out := w.txs[t], Execute(app, t, a, c);
    && (tx.phase.Active? || tx.phase == Blocked(b, a, c))
    && v == w.(apps := w.apps[b := out.app],
               txs := w.txs[t := tx.(phase := if out.answer.NotFound? then Refused else Active,
                                     related := tx.related + {b}, ops := tx.ops + [Op(b, a, c, out.answer)])])
  }

  lemma SameAccountOpOk(w: World, v: World, t: Tid, b: Branch, a: Account, c: Command, app: App, i: nat)
    requires t in w.txs && b in w.apps && TxOk(w, t) && Ran(w, v, t, b, a, c, app) && Ready(w.apps[b], app, t, a, c)
    requires i < |w.txs[t].ops| && SameAccount(w.txs[t].ops[i], Op(b, a, Balance, Done))
    ensures v.txs[t].ops[i].branch in v.apps && OpOk(v, t, i)
  {
    var ops, ops' := w.txs[t].ops, v.txs[t].ops;
    assert OpOk(w, t, i) && ops'[..i] == ops[..i] && ops'[i] == ops[i];
    if Upgrading(w.txs[t], b, a) {
      forall j | 0 <= j < |ops| && SameAccount(ops[j], ops[i]) ensures IsRead(ops[j].command) { assert OpOk(w, t, j); }
      assert SameAccount(ops'[|ops|], ops'[i]) && !IsRead(ops'[|ops|].command);
      assert !UnderLastLock(ops', i);
    } else {
      Earlier(ops, ops', i);
    }
  }

  lemma RanOpsOk(w: World, v: World, t: Tid, b: Branch, a: Account, c: Command, app: App, i: nat)
    requires t in w.txs && b in w.apps && TxOk(w, t) && Local(w, v, t, b)
    requires Ran(w, v, t, b, a, c, app) && Ready(w.apps[b], app, t, a, c)
    requires CacheOf(w.apps[b], t) == Deltas(w.txs[t].ops, b) && i < |v.txs[t].ops|
    ensures v.txs[t].ops[i].branch in v.apps && OpOk(v, t, i)
  {
    var ops, ops' := w.txs[t].ops, v.txs[t].ops;
    if i == |ops| {
      assert ops'[..i] == ops;
    } else if SameAccount(ops[i], Op(b, a, Balance, Done)) {
      SameAccountOpOk(w, v, t, b, a, c, app, i);
    } else {
      OldOpsOk(w, v, t, b, a, i);
    }
  }

  lemma RanOk(w: World, v: World, t: Tid, b: Branch, a: Account, c: Command, app: App)
    requires t in w.txs && b in w.apps && TxOk(w, t) && Local(w, v, t, b)
    requires Ran(w, v, t, b, a, c, app) && Ready(w.apps[b], app, t, a, c)
    ensures TxOk(v, t)
  {
    var op := v.txs[t].ops[|w.txs[t].ops|];
    assert CacheOk(w, t, b);
    forall b' ensures b' != b ==> Deltas(v.txs[t].ops, b') == Deltas(w.txs[t].ops, b') {
      DeltasSnoc(w.txs[t].ops, op, b');
    }
    DeltasSnoc(w.txs[t].ops, op, b);
    CachesAfterCommand(w, v, t, b);
    forall i | 0 <= i < |v.txs[t].ops| ensures v.txs[t].ops[i].branch in v.apps && OpOk(v, t, i) {
      RanOpsOk(w, v, t, b, a, c, app, i);
    }
  }

  /** `v` is `w` after transaction `t` has started to wait for the lock of its command. */
  ghost predicate Waits(w: World, v: World, t: Tid, b: Branch, a: Account, c: Command)
    requires t in w.txs && b in w.apps && b in v.apps
  {
    var tx, app, app' := w.txs[t], w.apps[b], v.apps[b];
    && tx.phase.Active? && KeepsLocks(app, app', t, a) && SameCache(app, app', t) && !Writes(app, t, a)
    && (if IsRead(c) then !Writes(app', t, a) && (Holds(app, t, a) ==> Holds(app', t, a)) else !Holds(app', t, a))
    && v == w.(apps := w.apps[b := app'],
      txs := w.txs[t := tx.(phase := Blocked(b, a, c), related := tx.related + {b})])
  }

  lemma WaitsOk(w: World, v: World, t: Tid, b: Branch, a: Account, c: Command)
    requires t in w.txs && b in w.apps && TxOk(w, t) && Local(w, v, t, b) && Waits(w, v, t, b, a, c)
    ensures TxOk(v, t)
  {
    assert CacheOk(w, t, b);
    CachesAfterCommand(w, v, t, b);
    forall i | 0 <= i < |v.txs[t].ops| ensures OpOk(v, t, i) {
      assert OpOk(w, t, i);
      if !SameAccount(w.txs[t].ops[i], Op(b, a, Balance, Done)) {
        OldOpsOk(w, v, t, b, a, i);
      }
    }
  }

  lemma RequestFacts(app: App, t: Tid, a: Account, read: bool)
    requires TableOk(app)
    ensures var req := RequestLock(Enter(app, t), t, a, read);
      && KeepsLocks(app, req.app, t, a) && SameCache(app, req.app, t) && TableOk(req.app)
      && (req.held <==> Writes(app, t, a)) && (req.held ==> Writes(req.app, t, a))
      && (!req.held ==>
          if read then !Writes(req.app, t, a) && (Holds(app, t, a) ==> Holds(req.app, t, a))
          else !Holds(req.app, t, a))
  {
    EnterKeepsTable(app, t);
    RequestKeepsTable(Enter(app, t), t, a, read);
    assert Mirrored(app, t, a) && Mirrored(Enter(app, t), t, a)
      && Mirrored(RequestLock(Enter(app, t), t, a, read).app, t, a);
  }

  lemma RequestLeavesOthers(app: App, t: Tid, a: Account, c: Command, u: Tid)
    requires u != t
    ensures var req := RequestLock(Enter(app, t), t, a, IsRead(c));
      Undisturbed(app, req.app, u) && Undisturbed(app, Execute(req.app, t, a, c).app, u)
  {}

  lemma GrantLeavesOthers(app: App, t: Tid, a: Account, c: Command, u: Tid)
    requires u != t
    ensures Undisturbed(app, Execute(GrantLock(app, t, a, IsRead(c)), t, a, c).app, u)
  {}

  /** The command runs at once, or waits. */
  lemma IssueSplit(w: World, t: Tid, b: Branch, a: Account, c: Command)
    requires Enabled(w, Issue(t, b, a, c))
    ensures var v := After(w, Issue(t, b, a, c)); var req := RequestLock(Enter(w.apps[b], t), t, a, IsRead(c));
      if req.held then Ran(w, v, t, b, a, c, req.app)
      else v == w.(apps := w.apps[b := req.app],
                   txs := w.txs[t := w.txs[t].(phase := Blocked(b, a, c), related := w.txs[t].related + {b})])
  {}

  lemma IssueLocal(w: World, t: Tid, b: Branch, a: Account, c: Command)
    requires Enabled(w, Issue(t, b, a, c))
    ensures Local(w, After(w, Issue(t, b, a, c)), t, b)
  {
    var app, v := w.apps[b], After(w, Issue(t, b, a, c));
    IssueSplit(w, t, b, a, c);
    forall u | u != t ensures Undisturbed(app, v.apps[b], u) { RequestLeavesOthers(app, t, a, c, u); }
  }

  lemma IssueForm(w: World, v: World, t: Tid, b: Branch, a: Account, c: Command)
    requires Enabled(w, Issue(t, b, a, c)) && v == After(w, Issue(t, b, a, c)) && TableOk(w.apps[b])
    ensures var req := RequestLock(Enter(w.apps[b], t), t, a, IsRead(c));
      && TableOk(v.apps[b])
      && (if req.held then Ran(w, v, t, b, a, c, req.app) && Ready(w.apps[b], req.app, t, a, c)
          else Waits(w, v, t, b, a, c))
  {
    IssueSplit(w, t, b, a, c);
    RequestFacts(w.apps[b], t, a, IsRead(c));
    var req := RequestLock(Enter(w.apps[b], t), t, a, IsRead(c));
    if req.held {
      ExecuteKeepsTable(req.app, t, a, c);
    }
  }

  lemma IssueKeepsInv(w: World, t: Tid, b: Branch, a: Account, c: Command)
    requires Inv(w) && Enabled(w, Issue(t, b, a, c))
    ensures Inv(After(w, Issue(t, b, a, c)))
  {
    var v := After(w, Issue(t, b, a, c));
    assert TxOk(w, t) && TableOk(w.apps[b]);
    IssueLocal(w, t, b, a, c);
    IssueForm(w, v, t, b, a, c);
    var req := RequestLock(Enter(w.apps[b], t), t, a, IsRead(c));
    if req.held {
      RanOk(w, v, t, b, a, c, req.app);
    } else {
      WaitsOk(w, v, t, b, a, c);
    }
    LocalKeepsInv(w, v, t, b);
  }

  lemma ProceedForm(w: World, t: Tid)
    requires Enabled(w, Proceed(t)) && TxOk(w, t) && TableOk(w.apps[w.txs[t].phase.branch])
    ensures var v := After(w, Proceed(t)); var p := w.txs[t].phase; var app := w.apps[p.branch];
      var granted := GrantLock(app, t, p.account, IsRead(p.command));
      && Local(w, v, t, p.branch) && TableOk(v.apps[p.branch])
      && Ran(w, v, t, p.branch, p.account, p.command, granted) && Ready(app, granted, t, p.account, p.command)
  {
    var v, b, a, c := After(w, Proceed(t)), w.txs[t].phase.branch, w.txs[t].phase.account, w.txs[t].phase.command;
    var app := w.apps[b];
    assert CacheOk(w, t, b) && Key(t, b) !in w.done;
    assert w.txs[t].related + {b} == w.txs[t].related;
    GrantKeepsTable(app, t, a, IsRead(c));
    ExecuteKeepsTable(GrantLock(app, t, a, IsRead(c)), t, a, c);
    forall u | u != t ensures Undisturbed(app, v.apps[b], u) { GrantLeavesOthers(app, t, a, c, u); }
  }

  lemma ProceedKeepsInv(w: World, t: Tid)
    requires Inv(w) && Enabled(w, Proceed(t))
    ensures Inv(After(w, Proceed(t)))
  {
    var v, p := After(w, Proceed(t)), w.txs[t].phase;
    assert TxOk(w, t) && TableOk(w.apps[p.branch]);
    ProceedForm(w, t);
    RanOk(w, v, t, p.branch, p.account, p.command, GrantLock(w.apps[p.branch], t, p.account, IsRead(p.command)));
    LocalKeepsInv(w, v, t, p.branch);
  }

  // ---------- Decisions ----------

  /** While a transaction that is not decided holds a lock, the branch and the serial bank agree on the account. */
  lemma LockedIsSerial(w: World, t: Tid, b: Branch, a: Account)
    requires Inv(w) && b in w.apps && Holds(w.apps[b], t, a) && !Pending(w, t, b)
    ensures forall u :: !Changes(w, u, b, a)
    ensures var serial := Replay(w.decided); var committed := w.apps[b].committed;
      ((b, a) in serial <==> a in committed) && (a in committed ==> serial[(b, a)] == committed[a])
  {
    assert TableOk(w.apps[b]);
    forall u ensures !Changes(w, u, b, a) {
      if Changes(w, u, b, a) {
        assert Writes(w.apps[b], u, a);
        WriterIsAlone(w.apps[b], u, t, a);
        assert false;
      }
    }
    assert Simulated(w, b, a);
  }

  /** No command of the transaction is waiting, and it is not decided. */
  predicate Deciding(p: Phase) {
    p.Active? || p.Refused? || p.Preparing?
  }

  lemma ReplyFits(w: World, t: Tid, i: nat)
    requires Inv(w) && t in w.txs && Deciding(w.txs[t].phase) && i < |w.txs[t].ops| && UnderLastLock(w.txs[t].ops, i)
    ensures w.txs[t].ops[i].answer == AnswerOn(Replay(w.decided), w.txs[t].ops, i)
  {
    var op := w.txs[t].ops[i];
    assert TxOk(w, t) && OpOk(w, t, i);
    LockedIsSerial(w, t, op.branch, op.account);
  }

  lemma WritesFit(w: World, t: Tid)
    requires Inv(w) && t in w.txs && Deciding(w.txs[t].phase)
    ensures WritesAgree(Replay(w.decided), w.txs[t].ops)
  {
    var ops := w.txs[t].ops;
    forall i | 0 <= i < |ops| && !IsRead(ops[i].command) ensures ops[i].answer == AnswerOn(Replay(w.decided), ops, i) {
      assert SameAccount(ops[i], ops[i]);
      ReplyFits(w, t, i);
    }
  }

  lemma {:induction false} SubsetOfSameSize<T>(x: set<T>, y: set<T>)
    requires x <= y && |x| == |y|
    ensures x == y
  {
    if x != {} {
      var e :| e in x;
      SubsetOfSameSize(x - {e}, y - {e});
    }
  }

  /** The counter reaches the number of branches only when every one of them has agreed. */
  lemma EveryBranchAgreed(w: World, t: Tid)
    requires t in w.txs && TxOk(w, t) && w.txs[t].phase.Preparing? && w.txs[t].canCommit == |w.txs[t].related|
    ensures w.txs[t].yes == w.txs[t].related
  {
    SubsetOfSameSize(w.txs[t].yes, w.txs[t].related);
  }

  lemma DecidedTxOk(w: World, t: Tid)
    requires Enabled(w, Decide(t)) && TxOk(w, t)
    ensures TxOk(After(w, Decide(t)), t)
  {
    var v := After(w, Decide(t));
    EveryBranchAgreed(w, t);
    WorkKept(w, v, t);
    forall b | b in v.apps ensures Sound(v, t, b) <==> Sound(w, t, b) {}
  }

  /** The balances a decided transaction leaves in the serial bank. */
  lemma SerialAfter(w: World, t: Tid, b: Branch, a: Account)
    requires Inv(w) && t in w.txs && w.txs[t].phase.Preparing? && b in w.apps
    ensures var serial := Replay(w.decided); var after := Replay(w.decided + [w.txs[t].ops]);
      var changes := CacheOf(w.apps[b], t);
      && ((b, a) in after <==> (b, a) in serial || a in changes)
      && ((b, a) in after ==> after[(b, a)] == (if (b, a) in serial then serial[(b, a)] else 0) + Get(changes, a))
  {
    var ops := w.txs[t].ops;
    assert (w.decided + [ops])[..|w.decided|] == w.decided;
    WritesFit(w, t);
    RunIsOverlay(Replay(w.decided), ops, b, a);
    assert TxOk(w, t) && CacheOk(w, t, b) && OrdersOk(w, t);
    assert Key(t, b) !in w.done;
  }

  lemma DecideSimulated(w: World, t: Tid, b: Branch, a: Account)
    requires Inv(w) && Enabled(w, Decide(t)) && b in w.apps
    ensures Simulated(After(w, Decide(t)), b, a)
  {
    var v, app := After(w, Decide(t)), w.apps[b];
    SerialAfter(w, t, b, a);
    assert Simulated(w, b, a) && TableOk(app);
    if t in app.cache && a in app.cache[t] {
      assert Writes(app, t, a);
      LockedIsSerial(w, t, b, a);
      forall u ensures Changes(v, u, b, a) ==> u == t { assert !Changes(w, u, b, a); }
      assert Changes(v, t, b, a);
    } else {
      forall u ensures Changes(v, u, b, a) <==> Changes(w, u, b, a) {}
    }
  }

  lemma {:induction false} ReplayedBranches(w: World, t: Tid, k: (Branch, Account))
    requires Inv(w) && t in w.txs && w.txs[t].phase.Preparing? && k in Replay(w.decided + [w.txs[t].ops])
    ensures k.0 in w.apps
  {
    var ops := w.txs[t].ops;
    assert (w.decided + [ops])[..|w.decided|] == w.decided;
    WritesFit(w, t);
    RunIsOverlay(Replay(w.decided), ops, k.0, k.1);
    assert TxOk(w, t);
    if k.0 !in w.apps { NoDeltas(ops, k.0); }
  }

  lemma {:induction false} NoDeltas(ops: seq<Op>, b: Branch)
    requires forall i :: 0 <= i < |ops| ==> ops[i].branch != b
    ensures Deltas(ops, b) == map[]
  {
    if |ops| > 0 { NoDeltas(ops[..|ops| - 1], b); }
  }

  lemma DecideKeepsInv(w: World, t: Tid)
    requires Inv(w) && Enabled(w, Decide(t))
    ensures Inv(After(w, Decide(t)))
  {
    var v := After(w, Decide(t));
    assert TxOk(w, t);
    DecidedTxOk(w, t);
    CallsKeepTxs(w, v, t);
    forall b, a | b in v.apps ensures Simulated(v, b, a) { DecideSimulated(w, t, b, a); }
    forall k | k in Replay(v.decided) ensures k.0 in v.apps { ReplayedBranches(w, t, k); }
  }

  // ---------- Applying and discarding ----------

  lemma DeliveredTxOk(w: World, key: Key)
    requires Enabled(w, Deliver(key)) && key.tid in w.txs && TxOk(w, key.tid)
    ensures TxOk(After(w, Deliver(key)), key.tid)
  {
    var t, b, v := key.tid, key.branch, After(w, Deliver(key));
    assert key == Key(t, b) && OrdersOk(w, t);
    forall b' | b' in v.apps ensures CacheOk(v, t, b') { assert CacheOk(w, t, b'); }
    forall b' | b' in v.apps && b' != b ensures Sound(v, t, b') <==> Sound(w, t, b') {}
  }

  /** Applying the changes of a transaction that was sound leaves no balance negative. */
  lemma AppliedNonNegative(w: World, key: Key)
    requires Inv(w) && Enabled(w, Deliver(key))
    ensures NonNegative(After(w, Deliver(key)).apps[key.branch])
  {
    var t, b := key.tid, key.branch;
    var app, app' := w.apps[b], After(w, Deliver(key)).apps[b];
    assert key == Key(t, b) && TxOk(w, t) && NonNegative(app) && TableOk(app);
    forall a ensures Get(app'.committed, a) >= 0 {
      assert Get(app.committed, a) >= 0;
      if w.orders[key] && a in CacheOf(app, t) {
        assert Sound(w, t, b) && Writes(app, t, a);
        assert a in LocksOf(app, t);
      }
    }
  }

  lemma OneChanges(w: World, b: Branch, a: Account, t: Tid, u: Tid)
    requires b in w.apps && TableOk(w.apps[b]) && Changes(w, u, b, a) && a in CacheOf(w.apps[b], t)
    ensures t == u
  {
    assert Writes(w.apps[b], u, a) && Writes(w.apps[b], t, a);
    WriterIsAlone(w.apps[b], u, t, a);
  }

  /** An account of the branch where transaction `t` is finished: its changes are added or dropped. */
  lemma FinishedAccount(w: World, key: Key, a: Account)
    requires Enabled(w, Deliver(key))
    ensures var v := After(w, Deliver(key)); var app := w.apps[key.branch]; var app' := v.apps[key.branch];
      var applied := w.orders[key] && a in CacheOf(app, key.tid);
      && (a in app'.committed <==> a in app.committed || applied)
      && Get(app'.committed, a) == Get(app.committed, a) + (if applied then app.cache[key.tid][a] else 0)
      && (forall u {:trigger Changes(v, u, key.branch, a)} :: Changes(v, u, key.branch, a) <==>
          u != key.tid && Changes(w, u, key.branch, a))
      && app'.cache == app.cache - {key.tid}
  {}

  lemma DeliverSimulated(w: World, key: Key, a: Account)
    requires Inv(w) && Enabled(w, Deliver(key))
    ensures Simulated(After(w, Deliver(key)), key.branch, a)
  {
    var t, b, v := key.tid, key.branch, After(w, Deliver(key));
    assert key == Key(t, b) && TxOk(w, t) && CacheOk(w, t, b) && OrdersOk(w, t) && TableOk(w.apps[b])
      && Simulated(w, b, a);
    FinishedAccount(w, key, a);
    if Changes(w, t, b, a) {
      forall u ensures !Changes(v, u, b, a) {
        if Changes(w, u, b, a) { OneChanges(w, b, a, t, u); }
      }
    } else if u :| Changes(w, u, b, a) {
      assert Changes(v, u, b, a);
      if a in CacheOf(w.apps[b], t) { OneChanges(w, b, a, t, u); }
    }
  }

  lemma DeliverKeepsInv(w: World, key: Key)
    requires Inv(w) && Enabled(w, Deliver(key))
    ensures Inv(After(w, Deliver(key)))
  {
    var t, b, v := key.tid, key.branch, After(w, Deliver(key));
    assert TxOk(w, t) && TableOk(w.apps[b]);
    FinishKeepsTable(w.apps[b], t, w.orders[key]);
    AppliedNonNegative(w, key);
    DeliveredTxOk(w, key);
    DeliverKeepsTxs(w, key);
    forall b', a | b' in v.apps ensures Simulated(v, b', a) {
      if b' == b {
        DeliverSimulated(w, key, a);
      } else {
        assert Simulated(w, b', a);
        forall u ensures Changes(v, u, b', a) <==> Changes(w, u, b', a) {}
      }
    }
  }

  lemma DeliverKeepsTxs(w: World, key: Key)
    requires Inv(w) && Enabled(w, Deliver(key)) && TxOk(After(w, Deliver(key)), key.tid)
    ensures var v := After(w, Deliver(key)); forall u {:trigger TxOk(v, u)} :: u in v.txs ==> TxOk(v, u)
  {
    var v := After(w, Deliver(key));
    assert TableOk(w.apps[key.branch]);
    forall u | u in v.txs && u != key.tid ensures TxOk(v, u) {
      assert TxOk(w, u);
      FinishLeavesOthers(w.apps[key.branch], key.tid, w.orders[key], u);
      BystanderOk(w, v, u);
    }
  }

  // ---------- Every step ----------

  lemma InitInv(branches: set<Branch>)
    ensures Inv(Init(branches))
  {
    var w := Init(branches);
    forall b | b in w.apps ensures TableOk(w.apps[b]) && NonNegative(w.apps[b]) {}
    forall b, a | b in w.apps ensures Simulated(w, b, a) {}
  }

  lemma StepKeepsInv(w: World, step: Step)
    requires Inv(w) && Enabled(w, step)
    ensures Inv(After(w, step))
  {
    match step
    case Begin(t) => BeginKeepsInv(w, t);
    case Issue(t, b, a, c) => IssueKeepsInv(w, t, b, a, c);
    case Proceed(t) => ProceedKeepsInv(w, t);
    case AskAbort(t) => AbortKeepsInv(w, w, t);
    case AskCommit(t) => AskCommitKeepsInv(w, t);
    case Prepare(key) => PrepareKeepsInv(w, key);
    case CountVote(key) => CountVoteKeepsInv(w, key);
    case Decide(t) => DecideKeepsInv(w, t);
    case Deliver(key) => DeliverKeepsInv(w, key);
  }
}
