/** A run with a reply that is not serial. */
module BankCounterexample {
  import opened Runs
  import opened BankBranch
  import opened BankSerial
  import opened BankWorld
  import opened BankSafety
  import opened BankTheorems
  import opened BankReaders
  import opened BankUpgrades

  // Transaction 2 reads an account, then asks to deposit to it. The upgrade gives up the read lock, and
  // transaction 3 changes the account and commits before transaction 2 goes on.

  lemma Extend(ws: seq<World>, step: Step) returns (more: seq<World>)
    requires Run(ws, {0}) && Enabled(Last(ws), step)
    ensures Run(more, {0}) && Last(more) == After(Last(ws), step) && ws <= more && |more| == |ws| + 1
  {
    more := ws + [After(Last(ws), step)];
    Extended(ws, Init({0}), Next, After(Last(ws), step));
  }

  /** What the invariant says of a transaction that has not begun, and of balances. */
  lemma NotBegun(ws: seq<World>, t: Tid)
    requires Run(ws, {0}) && Last(ws).apps.Keys == {0} && t !in Last(ws).txs
    ensures var app := Last(ws).apps[0];
      t !in app.cache && t !in app.txLockInfo && t !in LockOf(app, 0).tids && Get(app.committed, 0) >= 0
  {
    RunInv(ws, {0}, |ws| - 1);
    var app := Last(ws).apps[0];
    assert TableOk(app) && Mirrored(app, t, 0) && NonNegative(app) && Get(app.committed, 0) >= 0;
  }

  /** Calls, deliveries and decisions are the same. */
  ghost predicate SameTraffic(w: World, v: World) {
    v.votes == w.votes && v.orders == w.orders && v.done == w.done && v.decided == w.decided
      && v.apps.Keys == w.apps.Keys == {0}
  }

  /** A new transaction asks for account 0, which nobody has locked. */
  lemma Ask(ws: seq<World>, t: Tid, c: Command) returns (more: seq<World>)
    requires Run(ws, {0}) && Last(ws).apps.Keys == {0} && t !in Last(ws).txs
    ensures Run(more, {0}) && SameTraffic(Last(ws), Last(more))
    ensures var w, v := Last(ws), Last(more); var app := w.apps[0];
      && v.txs == w.txs[t := Tx(Blocked(0, 0, c), {0}, 0, [], {})]
      && v.apps[0] == Waiting(app, t) && t !in app.cache && t !in app.txLockInfo
  {
    var app := Last(ws).apps[0];
    NotBegun(ws, t);
    more := Extend(ws, Begin(t));
    assert Last(more).apps == Last(ws).apps && Last(more).txs[t].related + {0} == {0};
    assert LockOf(Enter(app, t), 0) == LockOf(app, 0);
    IssueSplit(Last(more), t, 0, 0, c);
    more := Extend(more, Issue(t, 0, 0, c));
  }

  /** The lock is free, and the command runs. */
  lemma Go(ws: seq<World>, t: Tid, c: Command, ops: seq<Op>) returns (more: seq<World>)
    requires Run(ws, {0}) && Last(ws).apps.Keys == {0} && t in Last(ws).txs
    requires Last(ws).txs[t] == Tx(Blocked(0, 0, c), {0}, 0, ops, {}) && Free(Last(ws).apps[0], 0, IsRead(c))
    requires var app := Last(ws).apps[0]; c.Deposit? || (c.Balance? && 0 in app.committed && 0 !in CacheOf(app, t))
    ensures ws <= more && |more| == |ws| + 1 && Last(more) == After(Last(ws), Proceed(t))
    ensures Run(more, {0}) && SameTraffic(Last(ws), Last(more))
    ensures var w, v := Last(ws), Last(more); var app := w.apps[0];
      var answer := if IsRead(c) then Amount(app.committed[0]) else Done;
      && v.txs == w.txs[t := Tx(Active, {0}, 0, ops + [Op(0, 0, c, answer)], {})]
      && v.apps[0] == Execute(GrantLock(app, t, 0, IsRead(c)), t, 0, c).app
  {
    more := Extend(ws, Proceed(t));
  }

  lemma Agree(ws: seq<World>, t: Tid, ops: seq<Op>) returns (more: seq<World>)
    requires Run(ws, {0}) && Last(ws).apps.Keys == {0} && t in Last(ws).txs
    requires Last(ws).txs[t] == Tx(Active, {0}, 0, ops, {}) && BankBranch.CanCommit(Last(ws).apps[0], t)
    ensures ws <= more
    ensures Run(more, {0}) && Last(more).apps == Last(ws).apps && Last(more).decided == Last(ws).decided
    ensures Last(more).txs == Last(ws).txs[t := Tx(Preparing, {0}, 0, ops, {})]
    ensures Key(t, 0) in Last(more).votes && Last(more).votes[Key(t, 0)] == Voted(true)
  {
    var key := Key(t, 0);
    more := Extend(ws, AskCommit(t));
    assert key in KeysOf(t, {0});
    assert key in Last(more).votes && Last(more).votes[key] == Vote.Asked;
    more := Extend(more, Prepare(key));
  }

  /** Branch 0 agrees, and the coordinator decides to commit. */
  lemma Commit(ws: seq<World>, t: Tid, ops: seq<Op>) returns (more: seq<World>)
    requires Run(ws, {0}) && Last(ws).apps.Keys == {0} && t in Last(ws).txs
    requires Last(ws).txs[t] == Tx(Active, {0}, 0, ops, {}) && BankBranch.CanCommit(Last(ws).apps[0], t)
    ensures ws <= more
    ensures Run(more, {0}) && Last(more).apps == Last(ws).apps
    ensures var w, v := Last(ws), Last(more);
      && v.txs == w.txs[t := Tx(Committed, {0}, 1, ops, {0})] && v.decided == w.decided + [ops]
      && Key(t, 0) in v.orders && v.orders[Key(t, 0)]
  {
    more := Agree(ws, t, ops);
    more := Extend(more, CountVote(Key(t, 0)));
    assert Last(more).txs[t] == Tx(Preparing, {0}, 1, ops, {0});
    assert Key(t, 0) in KeysOf(t, {0});
    more := Extend(more, Decide(t));
  }

  /** The branch once transaction `t` waits for account 0, and once it has deposited. */
  ghost function Waiting(app: App, t: Tid): App {
    Enter(app, t).(locks := app.locks[0 := LockOf(app, 0)])
  }

  ghost function Deposited(app: App, t: Tid, n: nat): App {
    Execute(GrantLock(Waiting(app, t), t, 0, false), t, 0, Deposit(n)).app
  }

  lemma DepositedApp(app: App, t: Tid, n: nat)
    requires t !in app.cache && t !in app.txLockInfo && Free(app, 0, false) && Get(app.committed, 0) >= 0
    ensures Free(Waiting(app, t), 0, false) && BankBranch.CanCommit(Deposited(app, t, n), t)
    ensures LocksOf(Deposited(app, t, n), t) == map[0 := false] && CacheOf(Deposited(app, t, n), t) == map[0 := n]
  {}

  lemma FinishedApp(app: App, t: Tid, n: nat)
    requires t !in app.cache && t !in app.txLockInfo && Free(app, 0, false) && Get(app.committed, 0) >= 0
    ensures var app' := Finish(Deposited(app, t, n), t, true);
      && Free(app', 0, false) && app'.committed == app.committed[0 := Get(app.committed, 0) + n]
      && forall u {:trigger LocksOf(app', u)} :: u != t ==>
          LocksOf(app', u) == LocksOf(app, u) && CacheOf(app', u) == CacheOf(app, u)
  {
    DepositedApp(app, t, n);
    var app2 := Deposited(app, t, n);
    forall u | u != t
      ensures LocksOf(Finish(app2, t, true), u) == LocksOf(app, u)
      ensures CacheOf(Finish(app2, t, true), u) == CacheOf(app, u)
    {
      assert LocksOf(app2, u) == LocksOf(app, u) && CacheOf(app2, u) == CacheOf(app, u);
    }
    assert AddAll(app.committed, map[0 := n]) == app.committed[0 := Get(app.committed, 0) + n];
  }

  /** A transaction that deposits `n` to account 0, from its beginning until the branch has applied it. */
  lemma DepositAlone(ws: seq<World>, t: Tid, n: nat) returns (more: seq<World>)
    requires Run(ws, {0}) && Last(ws).apps.Keys == {0} && t !in Last(ws).txs && Free(Last(ws).apps[0], 0, false)
    ensures Run(more, {0}) && Last(more).apps.Keys == {0}
    ensures var w, v := Last(ws), Last(more);
      && v.decided == w.decided + [[Op(0, 0, Deposit(n), Done)]]
      && t in v.txs && v.txs == w.txs[t := v.txs[t]] && t !in w.apps[0].cache && t !in w.apps[0].txLockInfo
      && v.apps[0] == Finish(Deposited(w.apps[0], t, n), t, true)
  {
    more := DepositRuns(ws, t, n);
    more := Settle(more, t, [Op(0, 0, Deposit(n), Done)]);
  }

  lemma DepositRuns(ws: seq<World>, t: Tid, n: nat) returns (more: seq<World>)
    requires Run(ws, {0}) && Last(ws).apps.Keys == {0} && t !in Last(ws).txs && Free(Last(ws).apps[0], 0, false)
    ensures Run(more, {0}) && SameTraffic(Last(ws), Last(more)) && t !in Last(ws).apps[0].cache
      && t !in Last(ws).apps[0].txLockInfo
    ensures Last(more).txs == Last(ws).txs[t := Tx(Active, {0}, 0, [Op(0, 0, Deposit(n), Done)], {})]
    ensures Last(more).apps[0] == Deposited(Last(ws).apps[0], t, n) && BankBranch.CanCommit(Last(more).apps[0], t)
  {
    NotBegun(ws, t);
    DepositedApp(Last(ws).apps[0], t, n);
    more := Ask(ws, t, Deposit(n));
    more := Go(more, t, Deposit(n), []);
    assert [] + [Op(0, 0, Deposit(n), Done)] == [Op(0, 0, Deposit(n), Done)];
  }

  lemma Settle(ws: seq<World>, t: Tid, ops: seq<Op>) returns (more: seq<World>)
    requires Run(ws, {0}) && Last(ws).apps.Keys == {0} && t in Last(ws).txs
    requires Last(ws).txs[t] == Tx(Active, {0}, 0, ops, {}) && BankBranch.CanCommit(Last(ws).apps[0], t)
    ensures Run(more, {0}) && Last(more).apps == map[0 := Finish(Last(ws).apps[0], t, true)]
    ensures Last(more).decided == Last(ws).decided + [ops] && t in Last(more).txs
      && Last(more).txs == Last(ws).txs[t := Last(more).txs[t]]
  {
    more := Commit(ws, t, ops);
    more := Extend(more, Deliver(Key(t, 0)));
  }

  const READ := Op(0, 0, Balance, Amount(10))

  /** Transaction 2 reads 10 from account 0. */
  lemma Read() returns (ws: seq<World>)
    ensures Run(ws, {0}) && Last(ws).apps.Keys == {0} && 2 in Last(ws).txs && 3 !in Last(ws).txs
    ensures Last(ws).decided == [[Op(0, 0, Deposit(10), Done)]] && Last(ws).txs[2] == Tx(Active, {0}, 0, [READ], {})
    ensures Last(ws).apps[0].committed == map[0 := 10] && CacheOf(Last(ws).apps[0], 2) == map[]
    ensures 0 in Last(ws).apps[0].locks && Last(ws).apps[0].locks[0] == Lock(1, false, map[2 := true])
    ensures LocksOf(Last(ws).apps[0], 2) == map[0 := true]
  {
    ws := [Init({0})];
    ws := DepositAlone(ws, 1, 10);
    FinishedApp(EMPTY, 1, 10);
    ws := Ask(ws, 2, Balance);
    ws := Go(ws, 2, Balance, []);
    assert [] + [READ] == [READ];
  }

  /** Before transaction 2 gets its write lock, transaction 3 deposits 5. */
  lemma Overtaken() returns (ws: seq<World>)
    ensures Run(ws, {0}) && Last(ws).apps.Keys == {0} && Free(Last(ws).apps[0], 0, false) && 2 in Last(ws).txs
    ensures Last(ws).decided == [[Op(0, 0, Deposit(10), Done)], [Op(0, 0, Deposit(5), Done)]]
    ensures Last(ws).txs[2] == Tx(Blocked(0, 0, Deposit(1)), {0}, 0, [READ], {})
    ensures Last(ws).apps[0].committed == map[0 := 15] && CacheOf(Last(ws).apps[0], 2) == map[]
      && LocksOf(Last(ws).apps[0], 2) == map[]
  {
    ws := Upgrading();
    var app := Last(ws).apps[0];
    NotBegun(ws, 3);
    ws := DepositAlone(ws, 3, 5);
    FinishedApp(app, 3, 5);
    assert LocksOf(Last(ws).apps[0], 2) == LocksOf(app, 2);
  }

  /** Transaction 2 has given up its read lock, to get the write lock. */
  lemma Upgrading() returns (ws: seq<World>)
    ensures Run(ws, {0}) && Last(ws).apps.Keys == {0} && Free(Last(ws).apps[0], 0, false) && 2 in Last(ws).txs
      && 3 !in Last(ws).txs
    ensures Last(ws).decided == [[Op(0, 0, Deposit(10), Done)]]
    ensures Last(ws).txs[2] == Tx(Blocked(0, 0, Deposit(1)), {0}, 0, [READ], {})
    ensures Last(ws).apps[0].committed == map[0 := 10] && CacheOf(Last(ws).apps[0], 2) == map[]
      && LocksOf(Last(ws).apps[0], 2) == map[]
  {
    ws := Read();
    assert map[0 := true] - {0} == map[];
    IssueSplit(Last(ws), 2, 0, 0, Deposit(1));
    ws := Extend(ws, Issue(2, 0, 0, Deposit(1)));
    assert {0} + {0} == {0};
  }

  /** Transaction 2 commits, although the balance it was told is not the one it would read if it ran last: when the
      branch granted its write lock, at moment `s`, the committed balance was another one. */
  lemma ReplyCanBeStale() returns (ws: seq<World>, s: nat)
    ensures Run(ws, {0}) && |Last(ws).decided| == 3 && |Last(ws).decided[2]| == 2
    ensures var before, ops := Replay(Last(ws).decided[..2]), Last(ws).decided[2];
      && ops[0].command.Balance? && ops[0].answer == Amount(10) && SerialReply(before, ops, 0) == Amount(15)
      && !UnderLastLock(ops, 0)
    ensures UpgradedAt(ws, s, 2, 0, READ) && ws[s].apps[0].committed == map[0 := 15]
  {
    ws := Overtaken();
    s := |ws| - 1;
    ws := Go(ws, 2, Deposit(1), [READ]);
    assert UpgradedAt(ws, s, 2, 0, READ);
    var ops := [READ, Op(0, 0, Deposit(1), Done)];
    assert [READ] + [Op(0, 0, Deposit(1), Done)] == ops;
    ghost var upgraded := ws;
    ws := Commit(ws, 2, ops);
    assert ws[s] == upgraded[s] && ws[s + 1] == upgraded[s + 1];
    var d1, d2 := [Op(0, 0, Deposit(10), Done)], [Op(0, 0, Deposit(5), Done)];
    assert Last(ws).decided[..2] == [d1, d2];
    Replayed(d1, d2);
    assert ops[..0] == [] && SameAccount(ops[1], ops[0]);
  }

  lemma Replayed(d1: seq<Op>, d2: seq<Op>)
    requires d1 == [Op(0, 0, Deposit(10), Done)] && d2 == [Op(0, 0, Deposit(5), Done)]
    ensures Replay([d1, d2]) == map[(0, 0) := 15]
  {
    assert [d1, d2][..1] == [d1] && [d1][..0] == [] && d1[..0] == [] && d2[..0] == [];
    assert Replay([]) == map[] && SerialRun(map[], []) == map[];
    assert Replay([d1]) == SerialRun(map[], d1) == SerialStep(map[], d1[0]) == map[(0, 0) := 10];
    assert SerialRun(map[(0, 0) := 10], []) == map[(0, 0) := 10];
    assert Replay([d1, d2]) == SerialRun(map[(0, 0) := 10], d2) == SerialStep(map[(0, 0) := 10], d2[0]);
  }

  // ---------- A read lock nobody gives up ----------

  /** Transaction 2 reads account 0 once more, and has two read locks. */
  lemma ReadAgain() returns (ws: seq<World>)
    ensures Run(ws, {0}) && Last(ws).apps.Keys == {0} && 2 in Last(ws).txs
    ensures |Last(ws).decided| == 1
    ensures Last(ws).txs[2] == Tx(Active, {0}, 0, [READ, READ], {}) && BankBranch.CanCommit(Last(ws).apps[0], 2)
    ensures 0 in Last(ws).apps[0].locks && Last(ws).apps[0].locks[0] == Lock(2, false, map[2 := true])
    ensures LocksOf(Last(ws).apps[0], 2) == map[0 := true]
  {
    ws := Read();
    IssueSplit(Last(ws), 2, 0, 0, Balance);
    ws := Extend(ws, Issue(2, 0, 0, Balance));
    assert {0} + {0} == {0};
    ws := Go(ws, 2, Balance, [READ]);
    assert [READ] + [READ] == [READ, READ];
  }

  /** A transaction that reads an account twice, and commits, leaves it to no writer ever again: the commit gives up
      one of its two read locks, and then nobody has a lock, but the account is not free in any state of any run that
      goes on from there. */
  lemma RepeatedBalanceBlocksWriters() returns (ws: seq<World>)
    ensures Run(ws, {0}) && |Last(ws).decided| == 2 && Last(ws).decided[1] == [READ, READ] && 0 in Last(ws).apps
    ensures (forall u :: !Holds(Last(ws).apps[0], u, 0)) && LockOf(Last(ws).apps[0], 0).readers == 1
    ensures forall more: seq<World>, j {:trigger Run(more, {0}), more[j]} ::
      Run(more, {0}) && ws <= more && |ws| - 1 <= j < |more| ==> 0 in more[j].apps && !Free(more[j].apps[0], 0, false)
  {
    ws := ReadAgain();
    var app := Last(ws).apps[0];
    ws := Settle(ws, 2, [READ, READ]);
    assert map[2 := true] - {2} == map[];
    RunInv(ws, {0}, |ws| - 1);
    assert TableOk(Last(ws).apps[0]);
    LockHolders(Last(ws).apps[0], 0);
    forall more: seq<World>, j | Run(more, {0}) && ws <= more && |ws| - 1 <= j < |more|
      ensures 0 in more[j].apps && !Free(more[j].apps[0], 0, false)
    {
      assert more[|ws| - 1] == Last(ws);
      NeverFreeAgain(more, {0}, |ws| - 1, j, 0, 0);
    }
  }
}
