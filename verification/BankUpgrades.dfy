/** Reads before a lock upgrade. */
module BankUpgrades {
  import opened Runs
  import opened BankBranch
  import opened BankSerial
  import opened BankWorld
  import opened BankSafety
  import opened BankTheorems

  // A reply is compared with the serial one when its transaction is about to be decided. What the branch would
  // reply then decides it; and from the moment the transaction has the write lock that does not change any more.

  /** Any reply, under whatever lock it was given: it is serial exactly if the branch would still give it. */
  lemma SerialIff(w: World, t: Tid, x: nat)
    requires Inv(w) && t in w.txs && Deciding(w.txs[t].phase) && x < |w.txs[t].ops|
    requires w.txs[t].ops[x].branch in w.apps
    ensures var ops := w.txs[t].ops; var op := ops[x];
      ops[x].answer == SerialReply(Replay(w.decided), ops, x)
      <==> op.answer == AnswerTo(op.command, w.apps[op.branch].committed, Deltas(ops[..x], op.branch), op.account)
  {
    var op := w.txs[t].ops[x];
    assert TxOk(w, t) && OpOk(w, t, x);
    LockedIsSerial(w, t, op.branch, op.account);
    WritesFit(w, t);
    ReplyIsAnswer(Replay(w.decided), w.txs[t].ops, x);
  }

  // ---------- A write lock fixes the balance ----------

  /** Transaction `t` writes account `a` of branch `b` and is not finished. */
  ghost predicate HasWriteLock(w: World, t: Tid, b: Branch, a: Account) {
    t in w.txs && !Finished(w.txs[t].phase) && b in w.apps && Writes(w.apps[b], t, a)
  }

  /** From `w` to `v`, the transaction's commands have only grown, and it has kept lock and balance. */
  ghost predicate Fixed(w: World, v: World, t: Tid, b: Branch, a: Account)
    requires b in w.apps && b in v.apps && t in w.txs && t in v.txs
  {
    && w.txs[t].ops <= v.txs[t].ops && Writes(v.apps[b], t, a)
    && (a in v.apps[b].committed <==> a in w.apps[b].committed)
    && Get(v.apps[b].committed, a) == Get(w.apps[b].committed, a)
  }

  lemma UndisturbedFixed(app: App, app': App, t: Tid, a: Account)
    requires Undisturbed(app, app', t) && Writes(app, t, a)
    ensures Writes(app', t, a) && (a in app'.committed <==> a in app.committed)
    ensures Get(app'.committed, a) == Get(app.committed, a)
  {
    assert Holds(app, t, a) && LocksOf(app, t) == LocksOf(app', t);
  }

  lemma IssueFixed(w: World, t: Tid, b: Branch, a: Account, u: Tid, b': Branch, a': Account, c: Command)
    requires Inv(w) && HasWriteLock(w, t, b, a) && Enabled(w, Issue(u, b', a', c))
    ensures var v := After(w, Issue(u, b', a', c)); b in v.apps && t in v.txs && Fixed(w, v, t, b, a)
  {
    var v := After(w, Issue(u, b', a', c));
    IssueLocal(w, u, b', a', c);
    if b' == b && u != t {
      assert Undisturbed(w.apps[b], v.apps[b], t);
      UndisturbedFixed(w.apps[b], v.apps[b], t, a);
    } else if b' == b {
      OwnIssueFixed(w, t, b, a, a', c);
    }
  }

  lemma OwnIssueFixed(w: World, t: Tid, b: Branch, a: Account, a': Account, c: Command)
    requires Inv(w) && HasWriteLock(w, t, b, a) && Enabled(w, Issue(t, b, a', c))
    ensures var v := After(w, Issue(t, b, a', c)); b in v.apps && t in v.txs && Fixed(w, v, t, b, a)
  {
    assert TableOk(w.apps[b]);
    RequestFacts(w.apps[b], t, a', IsRead(c));
    IssueSplit(w, t, b, a', c);
    assert Holds(w.apps[b], t, a);
  }

  lemma ProceedFixed(w: World, t: Tid, b: Branch, a: Account, u: Tid)
    requires Inv(w) && HasWriteLock(w, t, b, a) && Enabled(w, Proceed(u))
    ensures var v := After(w, Proceed(u)); b in v.apps && t in v.txs && Fixed(w, v, t, b, a)
  {
    var v, p := After(w, Proceed(u)), w.txs[u].phase;
    assert TxOk(w, u) && TableOk(w.apps[p.branch]);
    ProceedForm(w, u);
    if p.branch == b && u != t {
      assert Undisturbed(w.apps[b], v.apps[b], t);
      UndisturbedFixed(w.apps[b], v.apps[b], t, a);
    } else if p.branch == b {
      GrantFixed(w.apps[b], t, a, p.account, p.command);
    }
  }

  lemma GrantFixed(app: App, t: Tid, a: Account, a': Account, c: Command)
    requires Writes(app, t, a) && t in app.txLockInfo && (a' == a ==> !IsRead(c))
    ensures var app' := Execute(GrantLock(app, t, a', IsRead(c)), t, a', c).app;
      Writes(app', t, a) && app'.committed == app.committed
  {}

  lemma DeliverFixed(w: World, t: Tid, b: Branch, a: Account, key: Key)
    requires Inv(w) && HasWriteLock(w, t, b, a) && Enabled(w, Deliver(key))
    ensures var v := After(w, Deliver(key)); b in v.apps && t in v.txs && Fixed(w, v, t, b, a)
  {
    assert TxOk(w, key.tid) && OrdersOk(w, key.tid) && key == Key(key.tid, key.branch) && TableOk(w.apps[key.branch]);
    FinishLeavesOthers(w.apps[key.branch], key.tid, w.orders[key], t);
    if key.branch == b { UndisturbedFixed(w.apps[b], After(w, Deliver(key)).apps[b], t, a); }
  }

  lemma StepFixed(w: World, step: Step, t: Tid, b: Branch, a: Account)
    requires Inv(w) && Enabled(w, step) && HasWriteLock(w, t, b, a)
    ensures var v := After(w, step); b in v.apps && t in v.txs && Fixed(w, v, t, b, a)
  {
    match step
    case Issue(u, b', a', c) => IssueFixed(w, t, b, a, u, b', a', c);
    case Proceed(u) => ProceedFixed(w, t, b, a, u);
    case Deliver(key) => DeliverFixed(w, t, b, a, key);
    case _ =>
  }

  lemma StepKeepsTx(w: World, step: Step, t: Tid)
    requires Enabled(w, step) && t in w.txs
    ensures t in After(w, step).txs && (Finished(w.txs[t].phase) ==> Finished(After(w, step).txs[t].phase))
  {}

  lemma NextKeepsTx(w: World, v: World, t: Tid)
    requires Next(w, v) && t in w.txs
    ensures t in v.txs && (Finished(w.txs[t].phase) ==> Finished(v.txs[t].phase))
  {
    var step :| Enabled(w, step) && v == After(w, step);
    StepKeepsTx(w, step, t);
  }

  lemma {:induction false} StaysFinished(ws: seq<World>, branches: set<Branch>, i: nat, j: nat, t: Tid)
    requires Run(ws, branches) && i <= j < |ws| && t in ws[i].txs
    ensures t in ws[j].txs && (Finished(ws[i].txs[t].phase) ==> Finished(ws[j].txs[t].phase))
    decreases j
  {
    if i < j {
      StaysFinished(ws, branches, i, j - 1, t);
      StepAt(ws, Init(branches), Next, j - 1);
      NextKeepsTx(ws[j - 1], ws[j], t);
    }
  }

  lemma NextFixed(w: World, v: World, t: Tid, b: Branch, a: Account)
    requires Inv(w) && Next(w, v) && HasWriteLock(w, t, b, a)
    ensures b in v.apps && t in v.txs && Fixed(w, v, t, b, a)
  {
    var step :| Enabled(w, step) && v == After(w, step);
    StepFixed(w, step, t, b, a);
  }

  /** Until it is finished, a transaction with the write lock keeps it, and the balance does not change. */
  lemma {:induction false} FixedUntil(ws: seq<World>, branches: set<Branch>, i: nat, j: nat, t: Tid, b: Branch,
    a: Account)
    requires Run(ws, branches) && i <= j < |ws| && HasWriteLock(ws[i], t, b, a)
    requires t in ws[j].txs && !Finished(ws[j].txs[t].phase)
    ensures b in ws[j].apps && Fixed(ws[i], ws[j], t, b, a)
    decreases j
  {
    if i < j {
      StaysFinished(ws, branches, i, j - 1, t);
      StaysFinished(ws, branches, j - 1, j, t);
      FixedUntil(ws, branches, i, j - 1, t, b, a);
      NextOf(ws, branches, j - 1);
      NextFixed(ws[j - 1], ws[j], t, b, a);
    }
  }

  // ---------- A write lock comes with a write ----------

  ghost predicate Written(ops: seq<Op>, b: Branch, a: Account) {
    exists k {:trigger ops[k]} :: 0 <= k < |ops| && ops[k].branch == b && ops[k].account == a && !IsRead(ops[k].command)
  }

  lemma StillWritten(ops: seq<Op>, more: seq<Op>, b: Branch, a: Account)
    requires ops <= more && Written(ops, b, a)
    ensures Written(more, b, a)
  {
    var k :| 0 <= k < |ops| && ops[k].branch == b && ops[k].account == a && !IsRead(ops[k].command);
    assert more[k] == ops[k];
  }

  ghost predicate Backed(w: World, t: Tid, b: Branch, a: Account) {
    b in w.apps && Writes(w.apps[b], t, a) ==> t in w.txs && Written(w.txs[t].ops, b, a)
  }

  ghost predicate AddedBy(w: World, step: Step, t: Tid, op: Op)
    requires t in w.txs
  {
    || (step == Proceed(t) && w.txs[t].phase == Blocked(op.branch, op.account, op.command))
    || (step == Issue(t, op.branch, op.account, op.command)
        && op.branch in w.apps && Writes(w.apps[op.branch], t, op.account))
  }

  /** A step that adds a command to a transaction: its lock was there already, or is granted now. */
  lemma CommandAdded(w: World, step: Step, t: Tid)
    requires Inv(w) && Enabled(w, step) && t in w.txs
    ensures t in After(w, step).txs && w.txs[t].ops <= After(w, step).txs[t].ops
    ensures var ops, more := w.txs[t].ops, After(w, step).txs[t].ops;
      more == ops || (|more| == |ops| + 1 && AddedBy(w, step, t, more[|ops|]))
  {
    if step.Issue? && step.t == t {
      assert TableOk(w.apps[step.branch]);
      IssueSplit(w, t, step.branch, step.account, step.command);
      RequestFacts(w.apps[step.branch], t, step.account, IsRead(step.command));
    }
  }

  /** A transaction gets a write lock only when a command of its own that writes gets its turn. */
  ghost predicate Granted(w: World, step: Step, t: Tid, b: Branch, a: Account) {
    && step == Proceed(t) && t in w.txs && w.txs[t].phase.Blocked?
    && w.txs[t].phase.branch == b && w.txs[t].phase.account == a && !IsRead(w.txs[t].phase.command)
  }

  lemma ProceedLock(w: World, u: Tid, t: Tid, b: Branch, a: Account)
    requires Inv(w) && Enabled(w, Proceed(u)) && b in w.apps && Writes(After(w, Proceed(u)).apps[b], t, a)
    ensures Writes(w.apps[b], t, a) || Granted(w, Proceed(u), t, b, a)
  {
    var p := w.txs[u].phase;
    assert TxOk(w, u) && TableOk(w.apps[p.branch]);
    if u != t { GrantLeavesOthers(w.apps[p.branch], u, p.account, p.command, t); }
  }

  lemma IssueLock(w: World, u: Tid, b': Branch, a': Account, c: Command, t: Tid, b: Branch, a: Account)
    requires Enabled(w, Issue(u, b', a', c)) && b in w.apps && Writes(After(w, Issue(u, b', a', c)).apps[b], t, a)
    ensures Writes(w.apps[b], t, a)
  {
    IssueSplit(w, u, b', a', c);
    if b' == b { RequestWrites(w.apps[b], u, a', c, t, a); }
  }

  /** A lock that is asked for, and not held yet, is not there afterwards. */
  lemma RequestWrites(app: App, u: Tid, a': Account, c: Command, t: Tid, a: Account)
    ensures var req := RequestLock(Enter(app, u), u, a', IsRead(c));
      Writes(if req.held then Execute(req.app, u, a', c).app else req.app, t, a) ==> Writes(app, t, a)
  {}

  lemma DeliverLock(w: World, key: Key, t: Tid, b: Branch, a: Account)
    requires Enabled(w, Deliver(key)) && b in w.apps && Writes(After(w, Deliver(key)).apps[b], t, a)
    ensures Writes(w.apps[b], t, a)
  {}

  lemma NewLock(w: World, step: Step, t: Tid, b: Branch, a: Account)
    requires Inv(w) && Enabled(w, step) && b in w.apps && b in After(w, step).apps
      && Writes(After(w, step).apps[b], t, a)
    ensures Writes(w.apps[b], t, a) || Granted(w, step, t, b, a)
  {
    match step
    case Issue(u, b', a', c) => IssueLock(w, u, b', a', c, t, b, a);
    case Deliver(key) => DeliverLock(w, key, t, b, a);
    case Proceed(u) => ProceedLock(w, u, t, b, a);
    case _ =>
  }

  lemma StepBacked(w: World, step: Step, t: Tid, b: Branch, a: Account)
    requires Inv(w) && Enabled(w, step) && Backed(w, t, b, a)
    ensures Backed(After(w, step), t, b, a)
  {
    var v := After(w, step);
    if b in v.apps && Writes(v.apps[b], t, a) {
      NewLock(w, step, t, b, a);
      CommandAdded(w, step, t);
      if Writes(w.apps[b], t, a) {
        StillWritten(w.txs[t].ops, v.txs[t].ops, b, a);
      } else {
        var op := v.txs[t].ops[|w.txs[t].ops|];
        assert op.branch == b && op.account == a && !IsRead(op.command);
      }
    }
  }

  lemma {:induction false} RunBacked(ws: seq<World>, branches: set<Branch>, j: nat, t: Tid, b: Branch, a: Account)
    requires Run(ws, branches) && j < |ws|
    ensures Backed(ws[j], t, b, a)
  {
    if j > 0 {
      RunBacked(ws, branches, j - 1, t, b, a);
      NextOf(ws, branches, j - 1);
      var step :| Enabled(ws[j - 1], step) && ws[j] == After(ws[j - 1], step);
      StepBacked(ws[j - 1], step, t, b, a);
    }
  }

  // ---------- The exact condition ----------

  /** A reply outside `UnderLastLock`: a read, with a later write of the account and none before. */
  lemma BeforeUpgrade(ops: seq<Op>, x: nat)
    requires x < |ops| && !UnderLastLock(ops, x)
    ensures IsRead(ops[x].command) && Written(ops, ops[x].branch, ops[x].account)
    ensures !Written(ops[..x], ops[x].branch, ops[x].account)
  {
    assert SameAccount(ops[x], ops[x]);
    var k :| 0 <= k < |ops| && SameAccount(ops[k], ops[x]) && !IsRead(ops[k].command);
    assert ops[k].branch == ops[x].branch;
    forall y | 0 <= y < x && ops[..x][y].branch == ops[x].branch && ops[..x][y].account == ops[x].account
      ensures IsRead(ops[..x][y].command)
    {
      assert SameAccount(ops[y], ops[x]);
    }
  }

  lemma LastWrites(ops: seq<Op>, more: seq<Op>, b: Branch, a: Account)
    requires ops <= more && |more| <= |ops| + 1 && Written(more, b, a) && !Written(ops, b, a)
    ensures |more| == |ops| + 1
    ensures var op := more[|ops|]; op.branch == b && op.account == a && !IsRead(op.command)
  {
    forall y | 0 <= y < |ops| && more[y].branch == b && more[y].account == a ensures IsRead(more[y].command) {
      assert ops[y] == more[y];
    }
  }

  lemma {:induction false} NoChangeYet(ops: seq<Op>, b: Branch, a: Account)
    requires !Written(ops, b, a)
    ensures a !in Deltas(ops, b)
  {
    if |ops| > 0 {
      var n := |ops| - 1;
      assert Written(ops[..n], b, a) ==> Written(ops, b, a) by {
        if Written(ops[..n], b, a) { StillWritten(ops[..n], ops, b, a); }
      }
      NoChangeYet(ops[..n], b, a);
      assert !(ops[n].branch == b && ops[n].account == a && !IsRead(ops[n].command));
    }
  }

  /** At moment `s` the write lock that upgrades the lock of command `x` is granted. */
  ghost predicate UpgradedAt(ws: seq<World>, s: nat, t: Tid, x: nat, op: Op) {
    && s + 1 < |ws| && t in ws[s].txs && x < |ws[s].txs[t].ops| && ws[s].txs[t].ops[x] == op && op.branch in ws[s].apps
    && Enabled(ws[s], Proceed(t)) && ws[s + 1] == After(ws[s], Proceed(t))
    && Granted(ws[s], Proceed(t), t, op.branch, op.account)
  }

  lemma UpgradeHere(ws: seq<World>, branches: set<Branch>, j: nat, t: Tid, x: nat)
    requires Run(ws, branches) && j + 1 < |ws| && t in ws[j].txs && t in ws[j + 1].txs
    requires x < |ws[j + 1].txs[t].ops| && !UnderLastLock(ws[j + 1].txs[t].ops, x)
    requires var op := ws[j + 1].txs[t].ops[x]; !Written(ws[j].txs[t].ops, op.branch, op.account)
    ensures UpgradedAt(ws, j, t, x, ws[j + 1].txs[t].ops[x])
  {
    var w, v := ws[j], ws[j + 1];
    var ops, more := w.txs[t].ops, v.txs[t].ops;
    var op := more[x];
    NextOf(ws, branches, j);
    var step :| Enabled(w, step) && v == After(w, step);
    CommandAdded(w, step, t);
    BeforeUpgrade(more, x);
    RunBacked(ws, branches, j, t, op.branch, op.account);
    LastWrites(ops, more, op.branch, op.account);
    assert x < |ops| && ops[x] == op;
    assert TxOk(w, t);
  }

  /** Every reply given before an upgrade has such a moment. */
  lemma {:induction false} UpgradeMoment(ws: seq<World>, branches: set<Branch>, j: nat, t: Tid, x: nat) returns (s: nat)
    requires Run(ws, branches) && j < |ws| && t in ws[j].txs
    requires x < |ws[j].txs[t].ops| && !UnderLastLock(ws[j].txs[t].ops, x)
    ensures s < j && UpgradedAt(ws, s, t, x, ws[j].txs[t].ops[x])
  {
    assert j > 0;
    var w, v := ws[j - 1], ws[j];
    NextOf(ws, branches, j - 1);
    var step :| Enabled(w, step) && v == After(w, step);
    assert t in w.txs by { if t !in w.txs { NewTx(w, step, t); } }
    var op := v.txs[t].ops[x];
    CommandAdded(w, step, t);
    if Written(w.txs[t].ops, op.branch, op.account) {
      EarlierToo(w.txs[t].ops, v.txs[t].ops, x);
      s := UpgradeMoment(ws, branches, j - 1, t, x);
    } else {
      s := j - 1;
      UpgradeHere(ws, branches, j - 1, t, x);
    }
  }

  lemma NewTx(w: World, step: Step, t: Tid)
    requires Enabled(w, step) && t !in w.txs && t in After(w, step).txs
    ensures After(w, step).txs[t].ops == []
  {}

  lemma EarlierToo(ops: seq<Op>, more: seq<Op>, x: nat)
    requires ops <= more && |more| <= |ops| + 1 && x < |more| && !UnderLastLock(more, x)
    requires Written(ops, more[x].branch, more[x].account)
    ensures x < |ops| && !UnderLastLock(ops, x)
  {
    var k :| 0 <= k < |ops| && ops[k].branch == more[x].branch && ops[k].account == more[x].account
      && !IsRead(ops[k].command);
    assert more[k] == ops[k] && SameAccount(more[k], more[x]);
    assert k > x;
    assert SameAccount(ops[k], ops[x]);
    forall y | 0 <= y <= x && SameAccount(ops[y], ops[x]) ensures IsRead(ops[y].command) {
      assert more[y] == ops[y] && SameAccount(more[y], more[x]);
    }
  }

  lemma GrantHere(ws: seq<World>, s: nat, t: Tid, x: nat, op: Op)
    requires UpgradedAt(ws, s, t, x, op) && Inv(ws[s])
    ensures !op.answer.NotFound? && HasWriteLock(ws[s + 1], t, op.branch, op.account)
    ensures ws[s + 1].apps[op.branch].committed == ws[s].apps[op.branch].committed
  {
    assert TxOk(ws[s], t) && TableOk(ws[s].apps[op.branch]);
    ProceedForm(ws[s], t);
  }

  /** The account's committed balance is the same at the decision as when the lock was granted. */
  lemma UpgradeFixes(ws: seq<World>, branches: set<Branch>, s: nat, j: nat, t: Tid, x: nat, op: Op)
    requires Run(ws, branches) && s < j < |ws| && UpgradedAt(ws, s, t, x, op)
    requires t in ws[j].txs && !Finished(ws[j].txs[t].phase)
    ensures !op.answer.NotFound? && op.branch in ws[j].apps
    ensures var before, after := ws[s].apps[op.branch].committed, ws[j].apps[op.branch].committed;
      (op.account in after <==> op.account in before) && Get(after, op.account) == Get(before, op.account)
  {
    RunInv(ws, branches, s);
    GrantHere(ws, s, t, x, op);
    FixedUntil(ws, branches, s + 1, j, t, op.branch, op.account);
  }

  /** A balance read before a lock upgrade is serial at the decision exactly if it is the committed balance the
      branch has at the moment it grants the write lock. */
  lemma StaleReplyIff(ws: seq<World>, branches: set<Branch>, j: nat, t: Tid, x: nat) returns (s: nat)
    requires Run(ws, branches) && j < |ws| && t in ws[j].txs && Deciding(ws[j].txs[t].phase)
    requires x < |ws[j].txs[t].ops| && !UnderLastLock(ws[j].txs[t].ops, x)
    ensures s < j && UpgradedAt(ws, s, t, x, ws[j].txs[t].ops[x])
    ensures var ops := ws[j].txs[t].ops; var op := ops[x]; var committed := ws[s].apps[op.branch].committed;
      ops[x].answer == SerialReply(Replay(ws[j].decided), ops, x)
      <==> op.account in committed && op.answer == Amount(committed[op.account])
  {
    var ops := ws[j].txs[t].ops;
    s := UpgradeMoment(ws, branches, j, t, x);
    UpgradeFixes(ws, branches, s, j, t, x, ops[x]);
    RunInv(ws, branches, j);
    SerialIff(ws[j], t, x);
    BeforeUpgrade(ops, x);
    NoChangeYet(ops[..x], ops[x].branch, ops[x].account);
  }

  /** Any reply at all, about to be decided, is serial exactly if its branch would give it again. */
  lemma ReplyIsSerialIff(ws: seq<World>, branches: set<Branch>, j: nat, t: Tid, x: nat)
    requires Run(ws, branches) && j < |ws| && t in ws[j].txs && Deciding(ws[j].txs[t].phase)
    requires x < |ws[j].txs[t].ops|
    ensures var ops := ws[j].txs[t].ops; var op := ops[x];
      op.branch in ws[j].apps
      && (op.answer == SerialReply(Replay(ws[j].decided), ops, x)
          <==>
          op.answer == AnswerTo(op.command, ws[j].apps[op.branch].committed, Deltas(ops[..x], op.branch), op.account))
  {
    RunInv(ws, branches, j);
    assert TxOk(ws[j], t);
    SerialIff(ws[j], t, x);
  }

  // ---------- Decided transactions ----------

  /** The moment at which the k-th transaction to commit is decided. */
  lemma {:induction false} DecisionMoment(ws: seq<World>, branches: set<Branch>, j: nat, k: nat)
    returns (d: nat, t: Tid)
    requires Run(ws, branches) && j < |ws| && k < |ws[j].decided|
    ensures d < j && t in ws[d].txs && Enabled(ws[d], Decide(t))
    ensures ws[d].decided == ws[j].decided[..k] && ws[d].txs[t].ops == ws[j].decided[k]
  {
    assert j > 0;
    var w, v := ws[j - 1], ws[j];
    NextOf(ws, branches, j - 1);
    var step :| Enabled(w, step) && v == After(w, step);
    NextDecided(w, step);
    if k < |w.decided| {
      d, t := DecisionMoment(ws, branches, j - 1, k);
      assert v.decided[..k] == w.decided[..k];
    } else {
      d, t := j - 1, step.t;
      assert v.decided[..k] == w.decided;
    }
  }

  /** Serializability, exactly, for transaction `t`, which is the k-th to commit and is decided at moment `d`: its
      reply is the one of the serial bank, run in the order of decisions, always if it is under a lock still held;
      otherwise exactly if the balance read is the one committed at the branch at the moment `s` when it grants `t` the
      write lock. */
  lemma SerializabilityIff(ws: seq<World>, branches: set<Branch>, j: nat, k: nat, x: nat)
    returns (d: nat, t: Tid, s: nat)
    requires Run(ws, branches) && j < |ws| && k < |ws[j].decided| && x < |ws[j].decided[k]|
    ensures d < j && t in ws[d].txs && Enabled(ws[d], Decide(t))
    ensures ws[d].decided == ws[j].decided[..k] && ws[d].txs[t].ops == ws[j].decided[k]
    ensures var op := ws[j].decided[k][x];
      var serial := SerialReply(Replay(ws[j].decided[..k]), ws[j].decided[k], x);
      if UnderLastLock(ws[j].decided[k], x) then op.answer == serial
      else
        && s < d && UpgradedAt(ws, s, t, x, op)
        && var committed := ws[s].apps[op.branch].committed;
        (op.answer == serial <==> op.account in committed && op.answer == Amount(committed[op.account]))
  {
    d, t := DecisionMoment(ws, branches, j, k);
    s := 0;
    if UnderLastLock(ws[j].decided[k], x) {
      RepliesAreSerial(ws, branches, d, t, x);
    } else {
      s := StaleReplyIff(ws, branches, d, t, x);
    }
  }
}
