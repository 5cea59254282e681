/** The objects behind a branch: the account store with its lock table, and the coordinator's tables. Their
    methods update maps in place, each proved against the function of the protocol steps it carries out. */
module BankServer {
  import opened BankBranch
  import opened BankSerial
  import opened BankWorld

  /** `Application`. A mutex and the transactions holding it are one `Lock` value. */
  class Application {
    var locks: map<Account, Lock>
    var txLockInfo: map<Tid, map<Account, bool>>
    var committedData: map<Account, int>
    var cache: map<Tid, map<Account, int>>

    ghost function State(): App
      reads this
    {
      App(locks, txLockInfo, committedData, cache)
    }

    ghost predicate Valid()
      reads this
    {
      TableOk(State())
    }

    constructor ()
      ensures Valid() && State() == EMPTY
    {
      locks, txLockInfo, committedData, cache := map[], map[], map[], map[];
    }

    /** The head of `ForwardCmd`. */
    method Enter(tid: Tid)
      requires Valid()
      modifies this`txLockInfo, this`cache
      ensures Valid() && State() == BankBranch.Enter(old(State()), tid)
    {
      EnterKeepsTable(State(), tid);
      if tid !in cache {
        cache := cache[tid := map[]];
      }
      if tid !in txLockInfo {
        txLockInfo := txLockInfo[tid := map[]];
      }
      assert State() == BankBranch.Enter(old(State()), tid);
    }

    /** `AcquireRWLock` up to the call that may block; true when the lock that is needed is held already. */
    method RequestRWLock(tid: Tid, acctName: Account, isRead: bool) returns (held: bool)
      requires Valid() && tid in txLockInfo
      modifies this`locks, this`txLockInfo
      ensures Valid() && Request(State(), held) == RequestLock(old(State()), tid, acctName, isRead)
    {
      RequestKeepsTable(State(), tid, acctName, isRead);
      assert LockAt(State(), acctName) && Mirrored(State(), tid, acctName);
      if acctName !in locks {
        locks := locks[acctName := Lock(0, false, map[])];
      }
      var l := locks[acctName];
      held := false;
      if isRead {
        if tid in l.tids && !l.tids[tid] {
          held := true;
        }
      } else if tid in l.tids {
        if l.tids[tid] {
          LockReleased(l, tid);
          locks := locks[acctName := Lock(l.readers - 1, l.writer, l.tids - {tid})];
          txLockInfo := txLockInfo[tid := txLockInfo[tid] - {acctName}];
        } else {
          held := true;
        }
      }
    }

    /** `AcquireRWLock` once the mutex lets the request through. */
    method TakeRWLock(tid: Tid, acctName: Account, isRead: bool)
      requires Valid() && tid in txLockInfo && acctName in locks && Free(State(), acctName, isRead)
      requires !isRead ==> !Holds(State(), tid, acctName)
      modifies this`locks, this`txLockInfo
      ensures Valid() && State() == GrantLock(old(State()), tid, acctName, isRead)
    {
      GrantKeepsTable(State(), tid, acctName, isRead);
      var l, mine := locks[acctName], txLockInfo[tid];
      if isRead {
        locks := locks[acctName := Lock(l.readers + 1, l.writer, l.tids[tid := true])];
        txLockInfo := txLockInfo[tid := mine[acctName := true]];
      } else {
        locks := locks[acctName := Lock(l.readers, true, l.tids[tid := false])];
        txLockInfo := txLockInfo[tid := mine[acctName := false]];
      }
    }

    method Balance(tid: Tid, acctName: Account) returns (answer: Answer)
      requires Valid() && Holds(State(), tid, acctName)
      ensures Outcome(State(), answer) == Execute(State(), tid, acctName, Command.Balance)
    {
      var inCommit, inCache := acctName in committedData, acctName in cache[tid];
      if !inCommit && !inCache {
        return NotFound;
      }
      var balance := if inCommit then committedData[acctName] else 0;
      var changes := if inCache then cache[tid][acctName] else 0;
      answer := Amount(balance + changes);
    }

    method Deposit(tid: Tid, acctName: Account, amount: int) returns (answer: Answer)
      requires Valid() && Writes(State(), tid, acctName)
      modifies this`cache
      ensures Valid() && Outcome(State(), answer) == Execute(old(State()), tid, acctName, Command.Deposit(amount))
    {
      ExecuteKeepsTable(State(), tid, acctName, Command.Deposit(amount));
      var changes := cache[tid];
      if acctName !in changes {
        changes := changes[acctName := amount];
      } else {
        changes := changes[acctName := changes[acctName] + amount];
      }
      cache := cache[tid := changes];
      answer := Done;
    }

    method Withdraw(tid: Tid, acctName: Account, amount: int) returns (answer: Answer)
      requires Valid() && Writes(State(), tid, acctName)
      modifies this`cache
      ensures Valid() && Outcome(State(), answer) == Execute(old(State()), tid, acctName, Command.Withdraw(amount))
    {
      ExecuteKeepsTable(State(), tid, acctName, Command.Withdraw(amount));
      var inCommit, inCache := acctName in committedData, acctName in cache[tid];
      if !inCommit && !inCache {
        return NotFound;
      }
      var changes := cache[tid];
      var change := if inCache then changes[acctName] else 0;
      cache := cache[tid := changes[acctName := change - amount]];
      answer := Done;
    }

    method Prepare(tid: Tid) returns (canCommit: bool)
      requires Valid()
      ensures canCommit == BankBranch.CanCommit(State(), tid)
    {
      canCommit := true;
      var names := if tid in txLockInfo then txLockInfo[tid].Keys else {};
      while names != {}
        invariant names <= LocksOf(State(), tid).Keys
        invariant canCommit <==> forall a :: a in LocksOf(State(), tid) && a !in names ==>
          Get(committedData, a) + Get(CacheOf(State(), tid), a) >= 0
        decreases |names|
      {
        var a :| a in names;
        var balance := if a in committedData then committedData[a] else 0;
        var change := if tid in cache && a in cache[tid] then cache[tid][a] else 0;
        if balance + change < 0 {
          canCommit := false;
        }
        names := names - {a};
      }
    }

    method Commit(tid: Tid, doCommit: bool)
      requires Valid()
      modifies this
      ensures Valid() && State() == Finish(old(State()), tid, doCommit)
    {
      FinishKeepsTable(State(), tid, doCommit);
      if doCommit {
        AddChanges(tid);
      }
      cache := cache - {tid};
      ReleaseRWLocks(tid);
    }

    /** Add the cached changes of a transaction to the balances, one account at a time. */
    method AddChanges(tid: Tid)
      modifies this`committedData
      ensures committedData == AddAll(old(committedData), CacheOf(State(), tid))
    {
      ghost var was := committedData;
      var changes: map<Account, int> := if tid in cache then cache[tid] else map[];
      var names := changes.Keys;
      while names != {}
        invariant names <= changes.Keys
        invariant forall a {:trigger AddedAt(was, committedData, changes, names, a)} ::
          AddedAt(was, committedData, changes, names, a)
        decreases |names|
      {
        var a :| a in names;
        ghost var before, left := committedData, names;
        committedData := committedData[a := (if a in committedData then committedData[a] else 0) + changes[a]];
        names := names - {a};
        forall x ensures AddedAt(was, committedData, changes, names, x) {
          assert AddedAt(was, before, changes, left, x);
        }
      }
      forall a ensures AddedAt(was, committedData, changes, {}, a) {
        assert AddedAt(was, committedData, changes, names, a);
      }
      AddedAll(was, committedData, changes);
    }

    /** Unlock every mutex the transaction holds. */
    method ReleaseRWLocks(tid: Tid)
      requires forall a :: a in LocksOf(State(), tid) ==>
        a in locks && (if LocksOf(State(), tid)[a] then locks[a].readers > 0 else locks[a].writer)
      modifies this`locks, this`txLockInfo
      ensures State() == BankBranch.ReleaseLocks(old(State()), tid)
    {
      ghost var was := locks;
      var lockInfo: map<Account, bool> := if tid in txLockInfo then txLockInfo[tid] else map[];
      var names := lockInfo.Keys;
      while names != {}
        invariant names <= lockInfo.Keys && locks.Keys == was.Keys && txLockInfo == old(txLockInfo)
        invariant ReleasedBut(was, locks, tid, lockInfo, names)
        decreases |names|
      {
        var a :| a in names;
        ghost var before, left := locks, names;
        assert ReleasedAt(was, locks, tid, lockInfo, names, a);
        var l := locks[a];
        if lockInfo[a] {
          locks := locks[a := Lock(l.readers - 1, l.writer, l.tids - {tid})];
        } else {
          locks := locks[a := Lock(l.readers, false, l.tids - {tid})];
        }
        names := names - {a};
        ReleasedNext(was, before, locks, tid, lockInfo, left, a);
      }
      assert names == {};
      ReleasedAll(was, locks, tid, lockInfo);
      txLockInfo := txLockInfo - {tid};
    }
  }

  /** At account `a`, the changes have been added unless it is one of those left. */
  ghost predicate AddedAt(was: map<Account, int>, now: map<Account, int>, changes: map<Account, int>,
                          left: set<Account>, a: Account)
  {
    && (a in now <==> a in was || (a in changes && a !in left))
    && Get(now, a) == Get(was, a) + (if a in left then 0 else Get(changes, a))
  }

  lemma AddedAll(was: map<Account, int>, now: map<Account, int>, changes: map<Account, int>)
    requires forall a {:trigger AddedAt(was, now, changes, {}, a)} :: AddedAt(was, now, changes, {}, a)
    ensures now == AddAll(was, changes)
  {
    forall a ensures (a in now <==> a in AddAll(was, changes)) && (a in now ==> now[a] == AddAll(was, changes)[a]) {
      assert AddedAt(was, now, changes, {}, a);
    }
  }

  ghost predicate ReleasedAt(was: map<Account, Lock>, now: map<Account, Lock>, t: Tid, mine: map<Account, bool>,
                          left: set<Account>, a: Account)
  {
    a in was && a in now ==> now[a] == if a in mine && a !in left then Release(was[a], t, mine[a]) else was[a]
  }

  /** Every lock is released, or one of those left. */
  ghost predicate ReleasedBut(was: map<Account, Lock>, now: map<Account, Lock>, t: Tid, mine: map<Account, bool>,
                              left: set<Account>)
  {
    forall a {:trigger ReleasedAt(was, now, t, mine, left, a)} :: ReleasedAt(was, now, t, mine, left, a)
  }

  lemma ReleasedNext(was: map<Account, Lock>, before: map<Account, Lock>, now: map<Account, Lock>, t: Tid,
                     mine: map<Account, bool>, left: set<Account>, a: Account)
    requires a in left && a in mine && a in was && a in before && ReleasedBut(was, before, t, mine, left)
    requires now == before[a := Release(before[a], t, mine[a])]
    ensures ReleasedBut(was, now, t, mine, left - {a})
  {
    assert ReleasedAt(was, before, t, mine, left, a);
    forall x ensures ReleasedAt(was, now, t, mine, left - {a}, x) {
      assert ReleasedAt(was, before, t, mine, left, x);
    }
  }

  lemma ReleasedAll(was: map<Account, Lock>, now: map<Account, Lock>, t: Tid, mine: map<Account, bool>)
    requires now.Keys == was.Keys && ReleasedBut(was, now, t, mine, {})
    ensures now == ReleaseAll(was, t, mine)
  {
    forall a | a in now ensures now[a] == ReleaseAll(was, t, mine)[a] {
      assert ReleasedAt(was, now, t, mine, {}, a);
    }
  }

  /** The coordinator's tables of `Server`. */
  class Coordinator {
    var canCommit: map<Tid, nat>
    var relatedBranches: map<Tid, set<Branch>>

    /** The tables hold what the protocol knows of a transaction this server coordinates. */
    ghost predicate Shows(tid: Tid, tx: Tx)
      reads this
    {
      && tid in canCommit && canCommit[tid] == tx.canCommit
      && tid in relatedBranches && relatedBranches[tid] == tx.related
    }

    constructor ()
      ensures canCommit == map[] && relatedBranches == map[]
    {
      canCommit, relatedBranches := map[], map[];
    }

    /** BEGIN. Whatever the world, the tables follow its step, and say the same of other transactions. */
    method Begin(tid: Tid, ghost w: World)
      modifies this
      ensures Enabled(w, Step.Begin(tid)) ==> Shows(tid, After(w, Step.Begin(tid)).txs[tid])
      ensures forall u, tx {:trigger Shows(u, tx)} :: u != tid ==> Shows(u, tx) == old(Shows(u, tx))
    {
      canCommit := canCommit[tid := 0];
      relatedBranches := relatedBranches[tid := {}];
    }

    /** A command is about to be forwarded to `branch`. */
    method Relate(tid: Tid, branch: Branch, ghost w: World, ghost a: Account, ghost c: Command)
      requires tid in relatedBranches
      modifies this`relatedBranches
      ensures tid in w.txs && old(Shows(tid, w.txs[tid])) && Enabled(w, Issue(tid, branch, a, c)) ==>
        Shows(tid, After(w, Issue(tid, branch, a, c)).txs[tid])
      ensures forall u, tx {:trigger Shows(u, tx)} :: u != tid ==> Shows(u, tx) == old(Shows(u, tx))
    {
      ghost var related := relatedBranches[tid];
      if branch !in relatedBranches[tid] {
        relatedBranches := relatedBranches[tid := relatedBranches[tid] + {branch}];
      }
      assert relatedBranches[tid] == related + {branch};
    }

    /** Collect the replies to PREPARE, in the order they arrive, until one is a no or all have come. The
        orders that go out then are to commit if and only if every related branch has agreed. They are
        those that the steps of the protocol issue when they count the same votes. */
    method TwoPhaseCommit(tid: Tid, replies: seq<(Branch, bool)>, ghost w: World) returns (orders: map<Key, bool>)
      requires tid in canCommit && tid in relatedBranches && canCommit[tid] == 0
      requires OneEach(replies, relatedBranches[tid])
      modifies this`canCommit
      ensures orders == Calls(tid, relatedBranches[tid], forall b :: b in relatedBranches[tid] ==> (b, true) in replies)
      ensures tid in canCommit && canCommit == old(canCommit)[tid := canCommit[tid]]
      ensures Polled(w, tid, replies) && old(Shows(tid, w.txs[tid])) ==>
        Collect(w, tid, replies).orders == w.orders + orders
    {
      var shouldWait, next := true, 0;
      while shouldWait && canCommit[tid] != |relatedBranches[tid]|
        invariant next <= |replies| && tid in canCommit && canCommit[tid] <= next
        invariant canCommit == old(canCommit)[tid := canCommit[tid]]
        invariant shouldWait ==> canCommit[tid] == next && forall i :: 0 <= i < next ==> replies[i].1
        invariant !shouldWait ==> canCommit[tid] < |replies| && exists i :: 0 <= i < |replies| && !replies[i].1
        decreases shouldWait, |replies| - next
      {
        if replies[next].1 {
          canCommit := canCommit[tid := canCommit[tid] + 1];
        } else {
          shouldWait := false;
        }
        next := next + 1;
      }
      orders := Calls(tid, relatedBranches[tid], canCommit[tid] == |relatedBranches[tid]|);
      if Polled(w, tid, replies) && old(Shows(tid, w.txs[tid])) { CollectOrders(w, tid, replies); }
    }
  }

  /** The votes in `replies`, which nobody has counted yet, have reached the coordinator. */
  ghost predicate Polled(w: World, t: Tid, replies: seq<(Branch, bool)>) {
    && t in w.txs && w.txs[t].phase.Preparing? && w.txs[t].canCommit + |replies| == |w.txs[t].related|
    && (forall i :: 0 <= i < |replies| ==>
          Key(t, replies[i].0) in w.votes && w.votes[Key(t, replies[i].0)] == Voted(replies[i].1))
    && (forall i, j :: 0 <= i < j < |replies| ==> replies[i].0 != replies[j].0)
  }

  /** The coordinator's steps: decide as soon as that is possible, else count the next vote. */
  ghost function Collect(w: World, t: Tid, replies: seq<(Branch, bool)>): World
    decreases |replies|
  {
    if Enabled(w, Decide(t)) then After(w, Decide(t))
    else if |replies| > 0 && Enabled(w, CountVote(Key(t, replies[0].0))) then
      Collect(After(w, CountVote(Key(t, replies[0].0))), t, replies[1..])
    else w
  }

  lemma PolledNext(w: World, t: Tid, replies: seq<(Branch, bool)>)
    requires Polled(w, t, replies) && |replies| > 0 && replies[0].1
    ensures Enabled(w, CountVote(Key(t, replies[0].0)))
    ensures var v := After(w, CountVote(Key(t, replies[0].0)));
      Polled(v, t, replies[1..]) && v.txs[t].related == w.txs[t].related && v.orders == w.orders
  {
    var v := After(w, CountVote(Key(t, replies[0].0)));
    forall i | 0 <= i < |replies[1..]|
      ensures Key(t, replies[1..][i].0) in v.votes && v.votes[Key(t, replies[1..][i].0)] == Voted(replies[1..][i].1)
    {
      assert replies[1..][i] == replies[i + 1] && replies[0].0 != replies[i + 1].0;
    }
  }

  /** The steps end with a decision, which is to commit exactly if all votes are yes. */
  lemma {:induction false} CollectOrders(w: World, t: Tid, replies: seq<(Branch, bool)>)
    requires Polled(w, t, replies)
    ensures var v := Collect(w, t, replies); var commit := forall i :: 0 <= i < |replies| ==> replies[i].1;
      && v.orders == w.orders + Calls(t, w.txs[t].related, commit)
      && t in v.txs && v.txs[t].phase == (if commit then Committed else Aborted)
    decreases |replies|
  {
    if |replies| > 0 && replies[0].1 {
      PolledNext(w, t, replies);
      var v := After(w, CountVote(Key(t, replies[0].0)));
      CollectOrders(v, t, replies[1..]);
      assert Collect(w, t, replies) == Collect(v, t, replies[1..]);
      assert forall i :: 1 <= i < |replies| ==> replies[i] == replies[1..][i - 1];
    } else if |replies| > 0 {
      CollectNo(w, t, replies);
      assert !replies[0].1;
    }
  }

  lemma CollectNo(w: World, t: Tid, replies: seq<(Branch, bool)>)
    requires Polled(w, t, replies) && |replies| > 0 && !replies[0].1
    ensures Collect(w, t, replies).orders == w.orders + Calls(t, w.txs[t].related, false)
    ensures t in Collect(w, t, replies).txs && Collect(w, t, replies).txs[t].phase.Aborted?
  {
    var v := After(w, CountVote(Key(t, replies[0].0)));
    assert v.txs[t].phase.Aborted? && Collect(v, t, replies[1..]) == v;
  }

  /** One reply from each branch. */
  ghost predicate OneEach(replies: seq<(Branch, bool)>, branches: set<Branch>) {
    && |replies| == |branches|
    && (forall i :: 0 <= i < |replies| ==> replies[i].0 in branches)
    && (forall b :: b in branches ==> (b, true) in replies || (b, false) in replies)
    && (forall i, j :: 0 <= i < j < |replies| ==> replies[i].0 != replies[j].0)
  }
}
