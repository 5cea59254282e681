/** Who may read and write, and when. */
module BankReaders {
  import opened Runs
  import opened BankBranch
  import opened BankSerial
  import opened BankWorld
  import opened BankSafety
  import opened BankTheorems

  // A mutex counts read locks, and the table of holders counts transactions. Every BALANCE takes a read lock, also
  // from a transaction that has one already, and each holder gives up one. So the two drift apart exactly by the
  // repeated reads, and an account once read twice by a transaction is never free for a writer again.

  // ---------- The steps of a run ----------

  ghost predicate Took(ws: seq<World>, steps: seq<Step>, i: nat) {
    i + 1 < |ws| && i < |steps| && Enabled(ws[i], steps[i]) && ws[i + 1] == After(ws[i], steps[i])
  }

  /** A run with the steps it took. */
  ghost predicate Trace(ws: seq<World>, branches: set<Branch>, steps: seq<Step>) {
    && Run(ws, branches) && |steps| == |ws| - 1
    && forall i {:trigger Took(ws, steps, i)} :: 0 <= i < |steps| ==> Took(ws, steps, i)
  }

  /** Every run took some. */
  lemma {:induction false} TraceOf(ws: seq<World>, branches: set<Branch>) returns (steps: seq<Step>)
    requires Run(ws, branches)
    ensures Trace(ws, branches, steps)
    decreases |ws|
  {
    if |ws| == 1 {
      steps := [];
    } else {
      var n := |ws| - 1;
      Before(ws, Init(branches), Next, n);
      steps := TraceOf(ws[..n], branches);
      StepAt(ws, Init(branches), Next, n - 1);
      var step := StepFor(ws[n - 1], ws[n]);
      TraceMore(ws, branches, steps, step);
      steps := steps + [step];
    }
  }

  lemma StepFor(w: World, v: World) returns (step: Step)
    requires Next(w, v)
    ensures Enabled(w, step) && v == After(w, step)
  {
    step :| Enabled(w, step) && v == After(w, step);
  }

  lemma TraceMore(ws: seq<World>, branches: set<Branch>, steps: seq<Step>, step: Step)
    requires Run(ws, branches) && |ws| >= 2 && Trace(ws[..|ws| - 1], branches, steps)
    requires Enabled(ws[|ws| - 2], step) && ws[|ws| - 1] == After(ws[|ws| - 2], step)
    ensures Trace(ws, branches, steps + [step])
  {
    forall i | 0 <= i < |steps| + 1 ensures Took(ws, steps + [step], i) {
      if i < |steps| { assert Took(ws[..|ws| - 1], steps, i); }
    }
  }

  // ---------- Read locks taken and given up ----------

  /** The step takes a read lock on the account. */
  ghost predicate TakesRead(w: World, step: Step, b: Branch, a: Account) {
    && step.Proceed? && step.t in w.txs && w.txs[step.t].phase.Blocked?
    && w.txs[step.t].phase.branch == b && w.txs[step.t].phase.account == a && w.txs[step.t].phase.command.Balance?
  }

  /** The transaction has a read lock on the account. */
  ghost predicate Reads(app: App, t: Tid, a: Account) {
    Holds(app, t, a) && app.txLockInfo[t][a]
  }

  /** The step gives one up: to upgrade it, or because the transaction has ended. */
  ghost predicate GivesRead(w: World, step: Step, b: Branch, a: Account)
    requires b in w.apps
  {
    || (step.Issue? && step.branch == b && step.account == a && !step.command.Balance? && Reads(w.apps[b], step.t, a))
    || (step.Deliver? && step.key.branch == b && Reads(w.apps[b], step.key.tid, a))
  }

  /** It takes one for a transaction that has one. */
  ghost predicate TakesAgain(w: World, step: Step, b: Branch, a: Account)
    requires b in w.apps
  {
    TakesRead(w, step, b, a) && Holds(w.apps[b], step.t, a)
  }

  ghost function Taken(ws: seq<World>, steps: seq<Step>, j: nat, b: Branch, a: Account): nat
    requires j <= |steps| < |ws|
  {
    if j == 0 then 0 else Taken(ws, steps, j - 1, b, a) + if TakesRead(ws[j - 1], steps[j - 1], b, a) then 1 else 0
  }

  ghost function GivenUp(ws: seq<World>, steps: seq<Step>, j: nat, b: Branch, a: Account): nat
    requires j <= |steps| < |ws|
  {
    if j == 0 then 0
    else GivenUp(ws, steps, j - 1, b, a)
         + if b in ws[j - 1].apps && GivesRead(ws[j - 1], steps[j - 1], b, a) then 1 else 0
  }

  /** How often a transaction that had a read lock on the account took another. */
  ghost function Repeats(ws: seq<World>, steps: seq<Step>, j: nat, b: Branch, a: Account): nat
    requires j <= |steps| < |ws|
  {
    if j == 0 then 0
    else Repeats(ws, steps, j - 1, b, a)
         + if b in ws[j - 1].apps && TakesAgain(ws[j - 1], steps[j - 1], b, a) then 1 else 0
  }

  // ---------- What a step does to a lock ----------

  /** The account's lock changes by `taken` read locks taken and `given` given up. */
  ghost predicate Counts(l: Lock, l': Lock, taken: bool, given: bool) {
    l'.readers == l.readers + (if taken then 1 else 0) - (if given then 1 else 0)
  }

  /** The read locks that no holder accounts for. */
  function Excess(l: Lock): int {
    l.readers - if l.writer then 0 else |l.tids|
  }

  lemma TakeExcess(l: Lock, t: Tid, read: bool)
    requires LockOk(l) && !l.writer && (read || (l.readers == 0 && t !in l.tids))
    ensures Excess(Take(l, t, read)) == Excess(l) + if read && t in l.tids then 1 else 0
  {
    assert l.tids[t := read].Keys == l.tids.Keys + {t};
    if !read { assert |l.tids| == 0; }
  }

  lemma ReleaseExcess(l: Lock, t: Tid)
    requires LockOk(l) && t in l.tids
    ensures Excess(Release(l, t, l.tids[t])) == Excess(l)
    ensures Counts(l, Release(l, t, l.tids[t]), false, l.tids[t])
  {
    LockReleased(l, t);
    var rest := l.tids - {t};
    assert l.tids.Keys == rest.Keys + {t};
    if l.writer { assert rest == map[]; }
  }

  lemma RequestCounts(app: App, t: Tid, a: Account, read: bool, x: Account)
    requires LockAt(app, a) && Mirrored(app, t, a)
    ensures var l, l' := LockOf(app, x), LockOf(RequestLock(Enter(app, t), t, a, read).app, x);
      Counts(l, l', false, x == a && !read && Reads(app, t, a)) && Excess(l') == Excess(l)
  {
    if x == a && t in LockOf(app, a).tids { ReleaseExcess(LockOf(app, a), t); }
  }

  lemma GrantCounts(app: App, t: Tid, a: Account, read: bool, x: Account)
    requires LockAt(app, a) && Mirrored(app, t, a) && Free(app, a, read) && (read || !Holds(app, t, a))
    ensures var l, l' := LockOf(app, x), LockOf(GrantLock(app, t, a, read), x);
      && Counts(l, l', x == a && read, false)
      && Excess(l') == Excess(l) + if x == a && read && Holds(app, t, a) then 1 else 0
  {
    if x == a { TakeExcess(LockOf(app, a), t, read); }
  }

  lemma FinishCounts(app: App, t: Tid, apply: bool, x: Account)
    requires LockAt(app, x) && Mirrored(app, t, x)
    ensures var l, l' := LockOf(app, x), LockOf(Finish(app, t, apply), x);
      Counts(l, l', false, Reads(app, t, x)) && Excess(l') == Excess(l)
  {
    if Holds(app, t, x) { ReleaseExcess(app.locks[x], t); }
  }

  lemma IssueLocks(w: World, t: Tid, b: Branch, a: Account, c: Command, b': Branch)
    requires Enabled(w, Issue(t, b, a, c)) && b' in w.apps
    ensures b' in After(w, Issue(t, b, a, c)).apps
    ensures After(w, Issue(t, b, a, c)).apps[b'].locks
      == if b' == b then RequestLock(Enter(w.apps[b], t), t, a, IsRead(c)).app.locks else w.apps[b'].locks
  {
    IssueSplit(w, t, b, a, c);
  }

  lemma IssueCounts(w: World, t: Tid, b: Branch, a: Account, c: Command, b': Branch, a': Account)
    requires Inv(w) && Enabled(w, Issue(t, b, a, c)) && b' in w.apps
    ensures b' in After(w, Issue(t, b, a, c)).apps
    ensures var l, l' := LockOf(w.apps[b'], a'), LockOf(After(w, Issue(t, b, a, c)).apps[b'], a');
      Counts(l, l', false, GivesRead(w, Issue(t, b, a, c), b', a')) && Excess(l') == Excess(l)
  {
    var app := w.apps[b];
    assert TableOk(app) && Mirrored(app, t, a) && LockAt(app, a);
    IssueLocks(w, t, b, a, c, b');
    RequestCounts(app, t, a, IsRead(c), a');
  }

  lemma ProceedCounts(w: World, t: Tid, b': Branch, a': Account)
    requires Inv(w) && Enabled(w, Proceed(t)) && b' in w.apps
    ensures b' in After(w, Proceed(t)).apps
    ensures var l, l' := LockOf(w.apps[b'], a'), LockOf(After(w, Proceed(t)).apps[b'], a');
      && Counts(l, l', TakesRead(w, Proceed(t), b', a'), false)
      && Excess(l') == Excess(l) + if TakesAgain(w, Proceed(t), b', a') then 1 else 0
  {
    var p := w.txs[t].phase;
    var app := w.apps[p.branch];
    assert TxOk(w, t) && TableOk(app) && Mirrored(app, t, p.account) && LockAt(app, p.account);
    if b' == p.branch { GrantCounts(app, t, p.account, IsRead(p.command), a'); }
  }

  lemma DeliverCounts(w: World, key: Key, b': Branch, a': Account)
    requires Inv(w) && Enabled(w, Deliver(key)) && b' in w.apps
    ensures b' in After(w, Deliver(key)).apps
    ensures var l, l' := LockOf(w.apps[b'], a'), LockOf(After(w, Deliver(key)).apps[b'], a');
      Counts(l, l', false, GivesRead(w, Deliver(key), b', a')) && Excess(l') == Excess(l)
  {
    var app := w.apps[b'];
    assert TableOk(app) && Mirrored(app, key.tid, a') && LockAt(app, a');
    if b' == key.branch { FinishCounts(app, key.tid, w.orders[key], a'); }
  }

  lemma StepCounts(w: World, step: Step, b: Branch, a: Account)
    requires Inv(w) && Enabled(w, step) && b in w.apps
    ensures b in After(w, step).apps
    ensures var l, l' := LockOf(w.apps[b], a), LockOf(After(w, step).apps[b], a);
      && Counts(l, l', TakesRead(w, step, b, a), GivesRead(w, step, b, a))
      && Excess(l') == Excess(l) + if TakesAgain(w, step, b, a) then 1 else 0
  {
    match step
    case Issue(t, b', a', c) => IssueCounts(w, t, b', a', c, b, a);
    case Proceed(t) => ProceedCounts(w, t, b, a);
    case Deliver(key) => DeliverCounts(w, key, b, a);
    case _ =>
  }

  // ---------- Counting over a run ----------

  lemma BranchesStay(ws: seq<World>, branches: set<Branch>, j: nat)
    requires Run(ws, branches) && j < |ws|
    ensures ws[j].apps.Keys == branches
  {
    if j > 0 {
      BranchesStay(ws, branches, j - 1);
      NextOf(ws, branches, j - 1);
      var step :| Enabled(ws[j - 1], step) && ws[j] == After(ws[j - 1], step);
      StepBranches(ws[j - 1], step);
    }
  }

  lemma StepBranches(w: World, step: Step)
    requires Enabled(w, step)
    ensures After(w, step).apps.Keys == w.apps.Keys
  {}

  /** The mutex of an account counts the read locks taken less those given up; and also the holders, unless one of
      them writes, and the repeated reads. */
  lemma {:induction false} ReaderCount(ws: seq<World>, branches: set<Branch>, steps: seq<Step>, j: nat, b: Branch,
    a: Account)
    requires Trace(ws, branches, steps) && j < |ws| && b in branches
    ensures b in ws[j].apps
    ensures var l := LockOf(ws[j].apps[b], a);
      && l.readers == Taken(ws, steps, j, b, a) - GivenUp(ws, steps, j, b, a)
      && l.readers == (if l.writer then 0 else |l.tids|) + Repeats(ws, steps, j, b, a)
  {
    BranchesStay(ws, branches, j);
    if j > 0 {
      ReaderCount(ws, branches, steps, j - 1, b, a);
      assert Took(ws, steps, j - 1);
      CountNext(ws, branches, steps[j - 1], j - 1, b, a);
    } else {
      assert LockOf(ws[0].apps[b], a) == Lock(0, false, map[]);
    }
  }

  lemma CountNext(ws: seq<World>, branches: set<Branch>, step: Step, j: nat, b: Branch, a: Account)
    requires Run(ws, branches) && j + 1 < |ws| && Enabled(ws[j], step) && ws[j + 1] == After(ws[j], step)
    requires b in ws[j].apps
    ensures b in ws[j + 1].apps
    ensures var l, l' := LockOf(ws[j].apps[b], a), LockOf(ws[j + 1].apps[b], a);
      && Counts(l, l', TakesRead(ws[j], step, b, a), GivesRead(ws[j], step, b, a))
      && Excess(l') == Excess(l) + if TakesAgain(ws[j], step, b, a) then 1 else 0
  {
    RunInv(ws, branches, j);
    StepCounts(ws[j], step, b, a);
  }

  // ---------- Who waits ----------

  /** A command that waits for its account can go on exactly if nobody writes there and, to write, nobody has a lock
      there and no transaction has ever taken a second read lock. */
  lemma ProceedIff(ws: seq<World>, branches: set<Branch>, steps: seq<Step>, j: nat, t: Tid)
    requires Trace(ws, branches, steps) && j < |ws| && t in ws[j].txs && ws[j].txs[t].phase.Blocked?
    ensures var p := ws[j].txs[t].phase;
      p.branch in ws[j].apps
      && (Enabled(ws[j], Proceed(t))
          <==> && (forall u :: !Writes(ws[j].apps[p.branch], u, p.account))
               && (p.command.Balance?
                   || (&& (forall u :: !Holds(ws[j].apps[p.branch], u, p.account))
                       && Repeats(ws, steps, j, p.branch, p.account) == 0)))
  {
    RunInv(ws, branches, j);
    BranchesStay(ws, branches, j);
    var p := ws[j].txs[t].phase;
    assert TxOk(ws[j], t);
    ReaderCount(ws, branches, steps, j, p.branch, p.account);
    LockHolders(ws[j].apps[p.branch], p.account);
  }

  lemma LockHolders(app: App, a: Account)
    requires TableOk(app)
    ensures LockOf(app, a).writer <==> exists u :: Writes(app, u, a)
    ensures LockOf(app, a).tids == map[] <==> forall u :: !Holds(app, u, a)
  {
    var l := LockOf(app, a);
    assert LockAt(app, a);
    forall u ensures Holds(app, u, a) <==> u in l.tids { assert Mirrored(app, u, a); }
    forall u ensures Writes(app, u, a) <==> u in l.tids && l.writer { assert Mirrored(app, u, a); }
    if l.tids != map[] { var u :| u in l.tids; }
  }

  // ---------- For ever ----------

  /** There is a read lock that nobody will give up. */
  predicate Leaked(app: App, a: Account) {
    !LockOf(app, a).writer && Excess(LockOf(app, a)) > 0
  }

  lemma StepLeaks(w: World, step: Step, b: Branch, a: Account)
    requires Inv(w) && Enabled(w, step) && b in w.apps && Leaked(w.apps[b], a)
    ensures b in After(w, step).apps && Leaked(After(w, step).apps[b], a)
  {
    StepCounts(w, step, b, a);
    var v := After(w, step);
    StepKeepsInv(w, step);
    assert TableOk(v.apps[b]) && LockAt(v.apps[b], a);
  }

  lemma NextLeaks(ws: seq<World>, branches: set<Branch>, j: nat, b: Branch, a: Account)
    requires Run(ws, branches) && j + 1 < |ws| && b in ws[j].apps && Leaked(ws[j].apps[b], a)
    ensures b in ws[j + 1].apps && Leaked(ws[j + 1].apps[b], a)
  {
    NextOf(ws, branches, j);
    var step :| Enabled(ws[j], step) && ws[j + 1] == After(ws[j], step);
    StepLeaks(ws[j], step, b, a);
  }

  /** An account with such a lock is never free for a writer again, whatever happens. */
  lemma {:induction false} NeverFreeAgain(ws: seq<World>, branches: set<Branch>, i: nat, j: nat, b: Branch, a: Account)
    requires Run(ws, branches) && i <= j < |ws| && b in ws[i].apps && Leaked(ws[i].apps[b], a)
    ensures b in ws[j].apps && Leaked(ws[j].apps[b], a) && !Free(ws[j].apps[b], a, false)
    decreases j
  {
    if i == j {
      RunInv(ws, branches, j);
      assert TableOk(ws[j].apps[b]) && LockAt(ws[j].apps[b], a);
    } else {
      NeverFreeAgain(ws, branches, i, j - 1, b, a);
      NextLeaks(ws, branches, j - 1, b, a);
    }
  }

  // ---------- Every branch is asked ----------

  ghost predicate AllAsked(w: World, t: Tid) {
    t in w.txs && w.txs[t].phase.Preparing? ==>
      forall b {:trigger Key(t, b)} :: b in w.txs[t].related ==> Key(t, b) in w.votes || b in w.txs[t].yes
  }

  lemma StepAsks(w: World, step: Step, t: Tid)
    requires Enabled(w, step) && AllAsked(w, t)
    ensures AllAsked(After(w, step), t)
  {
    if step == AskCommit(t) {
      forall b | b in w.txs[t].related ensures Key(t, b) in After(w, step).votes {
        assert Key(t, b) in KeysOf(t, w.txs[t].related);
      }
    }
  }

  lemma NextAsks(w: World, v: World, t: Tid)
    requires Next(w, v) && AllAsked(w, t)
    ensures AllAsked(v, t)
  {
    var step :| Enabled(w, step) && v == After(w, step);
    StepAsks(w, step, t);
  }

  /** While a transaction is being decided, every related branch has been asked, and has agreed or its call is still
      on its way. */
  lemma {:induction false} EveryBranchAsked(ws: seq<World>, branches: set<Branch>, j: nat, t: Tid)
    requires Run(ws, branches) && j < |ws|
    ensures AllAsked(ws[j], t)
  {
    if j > 0 {
      EveryBranchAsked(ws, branches, j - 1, t);
      StepAt(ws, Init(branches), Next, j - 1);
      NextAsks(ws[j - 1], ws[j], t);
    }
  }
}
