/** One branch: locks, caches and balances. */
module BankBranch {

  // The lock table, the caches of running transactions and the committed balances, with the operations of
  // account.go and the participant's side of rpc.go.

  /** Transaction ids and account names are only ever compared. */
  type Tid = nat
  type Account = nat

  datatype Command = Deposit(amount: int) | Withdraw(amount: int) | Balance

  /** Replies to a command; NOT FOUND ends the transaction. */
  datatype Answer = Done | Amount(value: int) | NotFound

  /** An account's read/write mutex and the transactions holding it: true for reading. */
  datatype Lock = Lock(readers: nat, writer: bool, tids: map<Tid, bool>)

  datatype App = App(
    locks: map<Account, Lock>,
    txLockInfo: map<Tid, map<Account, bool>>,
    committed: map<Account, int>,
    cache: map<Tid, map<Account, int>>)

  const EMPTY := App(map[], map[], map[], map[])

  function LockOf(app: App, a: Account): Lock {
    if a in app.locks then app.locks[a] else Lock(0, false, map[])
  }

  function LocksOf(app: App, t: Tid): map<Account, bool> {
    if t in app.txLockInfo then app.txLockInfo[t] else map[]
  }

  function CacheOf(app: App, t: Tid): map<Account, int> {
    if t in app.cache then app.cache[t] else map[]
  }

  function Get(m: map<Account, int>, a: Account): int {
    if a in m then m[a] else 0
  }

  predicate IsRead(c: Command) { c.Balance? }

  // ---------- Operations ----------

  /** The head of `ForwardCmd`: a first command of a transaction creates its tables. */
  function Enter(app: App, t: Tid): App {
    app.(cache := app.cache[t := CacheOf(app, t)], txLockInfo := app.txLockInfo[t := LocksOf(app, t)])
  }

  /** Give up a lock, by `RUnlock` or `Unlock`. */
  function Release(l: Lock, t: Tid, read: bool): Lock {
    Lock(if read && l.readers > 0 then l.readers - 1 else l.readers, l.writer && read, l.tids - {t})
  }

  datatype Request = Request(app: App, held: bool)

  /** `AcquireRWLock` up to the point where it may block. A lock upgrade gives up the read lock here. */
  function RequestLock(app: App, t: Tid, a: Account, read: bool): Request {
    var l := LockOf(app, a);
    var app' := app.(locks := app.locks[a := l]);
    if t in l.tids && !l.tids[t] then Request(app', true)
    else if t in l.tids && !read then
      Request(app.(locks := app.locks[a := Release(l, t, true)],
        txLockInfo := app.txLockInfo[t := LocksOf(app, t) - {a}]), false)
    else Request(app', false)
  }

  /** The mutex lets the request through. */
  predicate Free(app: App, a: Account, read: bool) {
    !LockOf(app, a).writer && (read || LockOf(app, a).readers == 0)
  }

  /** Take a lock, by `RLock` or `Lock`. */
  function Take(l: Lock, t: Tid, read: bool): Lock {
    Lock(if read then l.readers + 1 else l.readers, l.writer || !read, l.tids[t := read])
  }

  /** `AcquireRWLock` from there on. */
  function GrantLock(app: App, t: Tid, a: Account, read: bool): App {
    var l := LockOf(app, a);
    app.(locks := app.locks[a := Take(l, t, read)],
         txLockInfo := app.txLockInfo[t := LocksOf(app, t)[a := read]])
  }

  /** The reply to a command on an account that is known with balance `base`, or not known, given cached changes. */
  function AnswerWith(c: Command, known: bool, base: int, changes: map<Account, int>, a: Account): Answer {
    if c.Deposit? then Done
    else if !known && a !in changes then NotFound
    else if c.Withdraw? then Done
    else Amount(base + Get(changes, a))
  }

  function AnswerTo(c: Command, committed: map<Account, int>, changes: map<Account, int>, a: Account): Answer {
    AnswerWith(c, a in committed, Get(committed, a), changes, a)
  }

  /** The effect of a command on the cached changes. */
  function Change(c: Command, answer: Answer, changes: map<Account, int>, a: Account): map<Account, int> {
    if c.Deposit? then changes[a := Get(changes, a) + c.amount]
    else if c.Withdraw? && answer.Done? then changes[a := Get(changes, a) - c.amount]
    else changes
  }

  datatype Outcome = Outcome(app: App, answer: Answer)

  /** `Balance`, `Deposit` and `Withdraw` once the lock is held. */
  function Execute(app: App, t: Tid, a: Account, c: Command): Outcome {
    var answer := AnswerTo(c, app.committed, CacheOf(app, t), a);
    Outcome(app.(cache := app.cache[t := Change(c, answer, CacheOf(app, t), a)]), answer)
  }

  /** `Prepare`: no account the transaction has locked would end up negative. */
  predicate CanCommit(app: App, t: Tid) {
    forall a :: a in LocksOf(app, t) ==> Get(app.committed, a) + Get(CacheOf(app, t), a) >= 0
  }

  function ReleaseAll(locks: map<Account, Lock>, t: Tid, mine: map<Account, bool>): map<Account, Lock> {
    map a | a in locks :: if a in mine then Release(locks[a], t, mine[a]) else locks[a]
  }

  /** `releaseLocks`. */
  function ReleaseLocks(app: App, t: Tid): App {
    app.(locks := ReleaseAll(app.locks, t, LocksOf(app, t)), txLockInfo := app.txLockInfo - {t})
  }

  function AddAll(committed: map<Account, int>, changes: map<Account, int>): map<Account, int> {
    map a | a in committed.Keys + changes.Keys :: Get(committed, a) + Get(changes, a)
  }

  /** `Commit`: apply or drop the cached changes, then release the locks. */
  function Finish(app: App, t: Tid, apply: bool): App {
    var app' := if apply then app.(committed := AddAll(app.committed, CacheOf(app, t))) else app;
    ReleaseLocks(app'.(cache := app'.cache - {t}), t)
  }

  // ---------- The lock table ----------

  ghost predicate Holds(app: App, t: Tid, a: Account) {
    t in app.txLockInfo && a in app.txLockInfo[t]
  }

  ghost predicate Writes(app: App, t: Tid, a: Account) {
    Holds(app, t, a) && !app.txLockInfo[t][a]
  }

  /** The mutex and the holders agree: one writer and nobody else, or readers that are all counted. */
  ghost predicate LockOk(l: Lock) {
    && (forall t :: t in l.tids ==> l.tids[t] == !l.writer)
    && (l.writer ==> l.readers == 0 && l.tids != map[] && forall t, u :: t in l.tids && u in l.tids ==> t == u)
    && (!l.writer ==> l.readers >= |l.tids|)
  }

  ghost predicate LockAt(app: App, a: Account) {
    a in app.locks ==> LockOk(app.locks[a])
  }

  ghost predicate Mirrored(app: App, t: Tid, a: Account) {
    && (Holds(app, t, a) <==> a in app.locks && t in app.locks[a].tids)
    && (Holds(app, t, a) ==> app.txLockInfo[t][a] == app.locks[a].tids[t])
  }

  /** The lock-table invariant. */
  ghost predicate TableOk(app: App) {
    && app.cache.Keys == app.txLockInfo.Keys
    && (forall a {:trigger LockAt(app, a)} :: LockAt(app, a))
    && (forall t, a {:trigger Mirrored(app, t, a)} :: Mirrored(app, t, a))
    && (forall t, a {:trigger Writes(app, t, a)} :: t in app.cache && a in app.cache[t] ==> Writes(app, t, a))
  }

  /** A writer excludes every other holder. */
  lemma WriterIsAlone(app: App, t: Tid, u: Tid, a: Account)
    requires TableOk(app) && Writes(app, t, a) && Holds(app, u, a)
    ensures t == u
  {
    assert Mirrored(app, t, a) && Mirrored(app, u, a) && LockAt(app, a);
  }

  lemma LockReleased(l: Lock, t: Tid)
    requires LockOk(l) && t in l.tids
    ensures LockOk(Release(l, t, l.tids[t]))
    ensures if l.tids[t] then l.readers > 0 else l.writer
  {
    var rest := l.tids - {t};
    assert l.tids.Keys == rest.Keys + {t};
    assert |l.tids| == |rest| + 1;
    if l.writer {
      assert rest == map[];
    }
  }

  lemma LockTaken(l: Lock, t: Tid, read: bool)
    requires LockOk(l) && !l.writer && (read || (l.readers == 0 && t !in l.tids))
    ensures LockOk(Take(l, t, read))
  {
    var more := l.tids[t := read];
    assert more.Keys == l.tids.Keys + {t};
    assert |more| <= |l.tids| + 1;
    if !read {
      assert l.tids.Keys == {};
    }
  }

  lemma EnterKeepsTable(app: App, t: Tid)
    requires TableOk(app)
    ensures TableOk(Enter(app, t))
  {
    var app' := Enter(app, t);
    forall a ensures LockAt(app', a) { assert LockAt(app, a); }
    forall u, a ensures Mirrored(app', u, a) { assert Mirrored(app, u, a); }
    forall u, a | u in app'.cache && a in app'.cache[u] ensures Writes(app', u, a) { assert Writes(app, u, a); }
  }

  /** The maps differ at most at `x`. */
  ghost predicate Agree(m: map<nat, bool>, m': map<nat, bool>, x: nat) {
    forall k :: k != x ==> (k in m <==> k in m') && (k in m ==> m[k] == m'[k])
  }

  /** Only the lock of `a` and the entry of `t` for it differ. */
  ghost predicate OnlyLock(app: App, app': App, t: Tid, a: Account) {
    && app'.cache == app.cache && app'.committed == app.committed
    && app'.txLockInfo.Keys == app.txLockInfo.Keys && app'.locks.Keys == app.locks.Keys + {a}
    && (forall b :: b in app.locks && b != a ==> app'.locks[b] == app.locks[b])
    && (forall u :: u in app.txLockInfo && u != t ==> app'.txLockInfo[u] == app.txLockInfo[u])
    && t in app.txLockInfo && Agree(app.txLockInfo[t], app'.txLockInfo[t], a)
    && Agree(LockOf(app, a).tids, app'.locks[a].tids, t)
  }

  lemma OnlyLockKeepsTable(app: App, app': App, t: Tid, a: Account)
    requires TableOk(app) && OnlyLock(app, app', t, a) && LockOk(app'.locks[a]) && Mirrored(app', t, a)
    requires t in app.cache && a in app.cache[t] ==> Writes(app', t, a)
    ensures TableOk(app')
  {
    forall b ensures LockAt(app', b) { assert LockAt(app, b); }
    forall u, b ensures Mirrored(app', u, b) {
      assert Mirrored(app, u, b);
    }
    forall u, b | u in app'.cache && b in app'.cache[u] ensures Writes(app', u, b) {
      assert Writes(app, u, b) && Mirrored(app, u, b) && Mirrored(app', u, b);
    }
  }

  lemma RequestOnlyLock(app: App, t: Tid, a: Account, read: bool)
    requires t in app.txLockInfo
    ensures OnlyLock(app, RequestLock(app, t, a, read).app, t, a)
  {}

  lemma GrantOnlyLock(app: App, t: Tid, a: Account, read: bool)
    requires t in app.txLockInfo
    ensures OnlyLock(app, GrantLock(app, t, a, read), t, a)
  {}

  lemma RequestLockOk(app: App, t: Tid, a: Account, read: bool)
    requires LockOk(LockOf(app, a)) && Mirrored(app, t, a) && t in app.txLockInfo
    ensures var app' := RequestLock(app, t, a, read).app;
      && LockOk(app'.locks[a]) && Mirrored(app', t, a) && (Writes(app, t, a) ==> Writes(app', t, a))
  {
    if t in LockOf(app, a).tids { LockReleased(LockOf(app, a), t); }
  }

  lemma RequestKeepsTable(app: App, t: Tid, a: Account, read: bool)
    requires TableOk(app) && t in app.cache
    ensures TableOk(RequestLock(app, t, a, read).app)
  {
    assert Mirrored(app, t, a) && LockAt(app, a);
    assert t in app.cache && a in app.cache[t] ==> Writes(app, t, a);
    RequestLockOk(app, t, a, read);
    RequestOnlyLock(app, t, a, read);
    OnlyLockKeepsTable(app, RequestLock(app, t, a, read).app, t, a);
  }

  lemma GrantKeepsTable(app: App, t: Tid, a: Account, read: bool)
    requires TableOk(app) && t in app.cache && Free(app, a, read) && (!read ==> !Holds(app, t, a))
    ensures TableOk(GrantLock(app, t, a, read))
  {
    assert Mirrored(app, t, a) && LockAt(app, a);
    assert t in app.cache && a in app.cache[t] ==> Writes(app, t, a);
    LockTaken(LockOf(app, a), t, read);
    GrantOnlyLock(app, t, a, read);
    OnlyLockKeepsTable(app, GrantLock(app, t, a, read), t, a);
  }

  lemma ExecuteKeepsTable(app: App, t: Tid, a: Account, c: Command)
    requires TableOk(app) && t in app.cache && (!IsRead(c) ==> Writes(app, t, a))
    ensures TableOk(Execute(app, t, a, c).app)
  {
    var app' := Execute(app, t, a, c).app;
    forall b ensures LockAt(app', b) { assert LockAt(app, b); }
    forall u, b ensures Mirrored(app', u, b) { assert Mirrored(app, u, b); }
    forall u, b | u in app'.cache && b in app'.cache[u] ensures Writes(app', u, b) {
      assert Writes(app, u, b) || (u == t && b == a);
    }
  }

  /** Commit and abort release what the transaction held; no mutex is unlocked that is not locked. */
  lemma FinishKeepsTable(app: App, t: Tid, apply: bool)
    requires TableOk(app)
    ensures TableOk(Finish(app, t, apply))
    ensures forall a :: a in LocksOf(app, t) ==>
      a in app.locks && (if LocksOf(app, t)[a] then app.locks[a].readers > 0 else app.locks[a].writer)
  {
    var app' := Finish(app, t, apply);
    forall a ensures LockAt(app', a) {
      assert LockAt(app, a) && Mirrored(app, t, a);
      if Holds(app, t, a) { LockReleased(app.locks[a], t); }
    }
    forall u, b ensures Mirrored(app', u, b) { assert Mirrored(app, u, b) && Mirrored(app, t, b); }
    forall u, b | u in app'.cache && b in app'.cache[u] ensures Writes(app', u, b) { assert Writes(app, u, b); }
    forall a | a in LocksOf(app, t)
      ensures a in app.locks && (if LocksOf(app, t)[a] then app.locks[a].readers > 0 else app.locks[a].writer)
    {
      assert Mirrored(app, t, a) && LockAt(app, a);
      LockReleased(app.locks[a], t);
    }
  }

  // ---------- What an operation of one transaction leaves alone of another ----------

  /** Nothing `t` can see has changed: its locks, its cache, and the balances it holds a lock on. */
  ghost predicate Undisturbed(app: App, app': App, t: Tid) {
    && (t in app.txLockInfo <==> t in app'.txLockInfo) && LocksOf(app, t) == LocksOf(app', t)
    && (t in app.cache <==> t in app'.cache) && CacheOf(app, t) == CacheOf(app', t)
    && (forall a {:trigger Holds(app, t, a)} :: Holds(app, t, a) ==>
          (a in app.committed <==> a in app'.committed) && Get(app.committed, a) == Get(app'.committed, a))
  }

  /** Applying a transaction changes only balances nobody else has a lock on. */
  lemma FinishLeavesOthers(app: App, t: Tid, apply: bool, u: Tid)
    requires TableOk(app) && u != t
    ensures Undisturbed(app, Finish(app, t, apply), u)
  {
    forall a | Holds(app, u, a) && a in CacheOf(app, t) ensures false {
      assert Writes(app, t, a);
      WriterIsAlone(app, t, u, a);
    }
  }
}
