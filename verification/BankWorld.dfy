/** All branches, all transactions with their coordinators, and the calls between them. Every RPC is one
    step, except that a command may have to wait for its lock; calls may be arbitrarily late or lost. */
module BankWorld {
  import opened BankBranch
  import opened BankSerial

  /** Where a transaction stands, from its client's and its coordinator's point of view. A client sends one
      command at a time and stops after COMMIT, ABORT or a NOT FOUND reply. */
  datatype Phase =
    | Active
    | Blocked(branch: Branch, account: Account, command: Command)
    | Refused
    | Preparing
    | Committed
    | Aborted

  /** `yes` records which branches have been counted in `canCommit`. */
  datatype Tx = Tx(phase: Phase, related: set<Branch>, canCommit: nat, ops: seq<Op>, yes: set<Branch>)

  datatype Key = Key(tid: Tid, branch: Branch)

  datatype Vote = Asked | Voted(yes: bool)

  datatype World = World(
    apps: map<Branch, App>,
    txs: map<Tid, Tx>,
    /** PREPARE calls in flight, and their replies. */
    votes: map<Key, Vote>,
    /** COMMIT calls in flight: apply or discard. */
    orders: map<Key, bool>,
    // History: which branch has applied or discarded what, and the commands of the transactions
    // decided to commit, in the order of the coordinators' decisions.
    done: map<Key, bool>,
    decided: seq<seq<Op>>)

  datatype Step =
    | Begin(t: Tid)
    | Issue(t: Tid, branch: Branch, account: Account, command: Command)
    | Proceed(t: Tid)
    | AskAbort(t: Tid)
    | AskCommit(t: Tid)
    | Prepare(key: Key)
    | CountVote(key: Key)
    | Decide(t: Tid)
    | Deliver(key: Key)

  function Init(branches: set<Branch>): World {
    World(map b | b in branches :: EMPTY, map[], map[], map[], map[], [])
  }

  predicate Finished(p: Phase) {
    p.Committed? || p.Aborted?
  }

  predicate Enabled(w: World, step: Step) {
    match step
    case Begin(t) => t !in w.txs
    case Issue(t, b, _, _) => t in w.txs && w.txs[t].phase.Active? && b in w.apps
    case Proceed(t) =>
      && t in w.txs && w.txs[t].phase.Blocked? && w.txs[t].phase.branch in w.apps
      && Free(w.apps[w.txs[t].phase.branch], w.txs[t].phase.account, IsRead(w.txs[t].phase.command))
    case AskAbort(t) => t in w.txs && (w.txs[t].phase.Active? || w.txs[t].phase.Refused?)
    case AskCommit(t) => t in w.txs && w.txs[t].phase.Active?
    case Prepare(key) => key in w.votes && w.votes[key].Asked? && key.branch in w.apps
    case CountVote(key) =>
      && key in w.votes && w.votes[key].Voted? && key.tid in w.txs && w.txs[key.tid].phase.Preparing?
      && w.txs[key.tid].canCommit != |w.txs[key.tid].related|
    case Decide(t) => t in w.txs && w.txs[t].phase.Preparing? && w.txs[t].canCommit == |w.txs[t].related|
    case Deliver(key) => key in w.orders && key.branch in w.apps
  }

  function KeysOf(t: Tid, branches: set<Branch>): set<Key> {
    set b | b in branches :: Key(t, b)
  }

  function Calls<V>(t: Tid, branches: set<Branch>, v: V): map<Key, V> {
    map key | key in KeysOf(t, branches) :: v
  }

  /** The reply to a command reaches the client. */
  function Replied(w: World, t: Tid, app: App, b: Branch, a: Account, c: Command): World
    requires t in w.txs
  {
    var out := Execute(app, t, a, c);
    var tx := w.txs[t];
    w.(apps := w.apps[b := out.app],
       txs := w.txs[t := tx.(phase := if out.answer.NotFound? then Refused else Active,
                             ops := tx.ops + [Op(b, a, c, out.answer)])])
  }

  function AfterIssue(w: World, t: Tid, b: Branch, a: Account, c: Command): World
    requires Enabled(w, Issue(t, b, a, c))
  {
    var tx := w.txs[t].(related := w.txs[t].related + {b});
    var req := RequestLock(Enter(w.apps[b], t), t, a, IsRead(c));
    if req.held then Replied(w.(txs := w.txs[t := tx]), t, req.app, b, a, c)
    else w.(apps := w.apps[b := req.app], txs := w.txs[t := tx.(phase := Blocked(b, a, c))])
  }

  function AfterProceed(w: World, t: Tid): World
    requires Enabled(w, Proceed(t))
  {
    var p := w.txs[t].phase;
    Replied(w, t, GrantLock(w.apps[p.branch], t, p.account, IsRead(p.command)), p.branch, p.account, p.command)
  }

  /** `DoAbort`. */
  function Abort(w: World, t: Tid): World
    requires t in w.txs
  {
    w.(txs := w.txs[t := w.txs[t].(phase := Aborted)], orders := w.orders + Calls(t, w.txs[t].related, false))
  }

  function AfterCountVote(w: World, key: Key): World
    requires Enabled(w, CountVote(key))
  {
    var w' := w.(votes := w.votes - {key});
    var tx := w.txs[key.tid];
    if w.votes[key].yes then
      w'.(txs := w.txs[key.tid := tx.(canCommit := tx.canCommit + 1, yes := tx.yes + {key.branch})])
    else Abort(w', key.tid)
  }

  function AfterDecide(w: World, t: Tid): World
    requires Enabled(w, Decide(t))
  {
    w.(txs := w.txs[t := w.txs[t].(phase := Committed)], orders := w.orders + Calls(t, w.txs[t].related, true),
       decided := w.decided + [w.txs[t].ops])
  }

  function AfterDeliver(w: World, key: Key): World
    requires Enabled(w, Deliver(key))
  {
    var apply := w.orders[key];
    w.(apps := w.apps[key.branch := Finish(w.apps[key.branch], key.tid, apply)],
       orders := w.orders - {key}, done := w.done[key := apply])
  }

  function After(w: World, step: Step): World
    requires Enabled(w, step)
  {
    match step
    case Begin(t) => w.(txs := w.txs[t := Tx(Active, {}, 0, [], {})])
    case Issue(t, b, a, c) => AfterIssue(w, t, b, a, c)
    case Proceed(t) => AfterProceed(w, t)
    case AskAbort(t) => Abort(w, t)
    case AskCommit(t) =>
      w.(txs := w.txs[t := w.txs[t].(phase := Preparing)], votes := w.votes + Calls(t, w.txs[t].related, Asked))
    case Prepare(key) => w.(votes := w.votes[key := Voted(BankBranch.CanCommit(w.apps[key.branch], key.tid))])
    case CountVote(key) => AfterCountVote(w, key)
    case Decide(t) => AfterDecide(w, t)
    case Deliver(key) => AfterDeliver(w, key)
  }

  // ---------- The invariant ----------

  ghost predicate CacheOk(w: World, t: Tid, b: Branch)
    requires t in w.txs && b in w.apps
  {
    && (t in w.apps[b].cache <==> b in w.txs[t].related && Key(t, b) !in w.done)
    && (Key(t, b) !in w.done ==> CacheOf(w.apps[b], t) == Deltas(w.txs[t].ops, b))
  }

  /** The transaction waits to write the account, so it holds no lock on it. */
  predicate Upgrading(tx: Tx, b: Branch, a: Account) {
    tx.phase.Blocked? && tx.phase.branch == b && tx.phase.account == a && !IsRead(tx.phase.command)
  }

  /** A command of a running transaction still has its lock, and its reply is still what the branch would reply. */
  ghost predicate OpOk(w: World, t: Tid, i: nat)
    requires t in w.txs && i < |w.txs[t].ops| && w.txs[t].ops[i].branch in w.apps
  {
    var tx := w.txs[t];
    var op := tx.ops[i];
    var app := w.apps[op.branch];
    if Upgrading(tx, op.branch, op.account) then IsRead(op.command)
    else
      && Holds(app, t, op.account) && (!IsRead(op.command) ==> Writes(app, t, op.account))
      && (UnderLastLock(tx.ops, i) ==>
            op.answer == AnswerTo(op.command, app.committed, Deltas(tx.ops[..i], op.branch), op.account))
  }

  ghost predicate WaitOk(w: World, t: Tid)
    requires t in w.txs
  {
    var p := w.txs[t].phase;
    p.Blocked? ==> (
      && p.branch in w.txs[t].related && p.branch in w.apps
      && (if IsRead(p.command) then !Writes(w.apps[p.branch], t, p.account)
          else !Holds(w.apps[p.branch], t, p.account)))
  }

  /** The branch would answer yes to PREPARE. */
  ghost predicate Sound(w: World, t: Tid, b: Branch)
    requires b in w.apps
  {
    BankBranch.CanCommit(w.apps[b], t)
  }

  ghost predicate VotingOk(w: World, t: Tid)
    requires t in w.txs && w.txs[t].yes <= w.txs[t].related <= w.apps.Keys
  {
    var tx := w.txs[t];
    && (forall b {:trigger Key(t, b)} :: Key(t, b) in w.votes ==>
        b in tx.related && (tx.phase.Preparing? || Finished(tx.phase)))
    && (tx.phase.Preparing? ==>
          && tx.canCommit == |tx.yes|
          && (forall b {:trigger Key(t, b)} :: Key(t, b) in w.votes ==>
                b !in tx.yes && (w.votes[Key(t, b)] == Voted(true) ==> Sound(w, t, b)))
          && (forall b {:trigger Sound(w, t, b)} :: b in tx.yes ==> Sound(w, t, b)))
    && (!tx.phase.Preparing? && !Finished(tx.phase) ==> tx.canCommit == 0 && tx.yes == {})
    && (tx.phase.Committed? ==> tx.yes == tx.related)
    && (tx.phase.Committed? ==>
          forall b {:trigger Sound(w, t, b)} :: b in tx.related && Key(t, b) !in w.done ==> Sound(w, t, b))
  }

  ghost predicate OrdersOk(w: World, t: Tid)
    requires t in w.txs
  {
    var tx := w.txs[t];
    && (forall b {:trigger Key(t, b)} :: Key(t, b) in w.orders ==>
          b in tx.related && Finished(tx.phase) && Key(t, b) !in w.done && w.orders[Key(t, b)] == tx.phase.Committed?)
    && (forall b {:trigger Key(t, b)} :: Key(t, b) in w.done ==>
          b in tx.related && Finished(tx.phase) && w.done[Key(t, b)] == tx.phase.Committed?)
    && (Finished(tx.phase) ==>
        forall b {:trigger Key(t, b)} :: b in tx.related ==> Key(t, b) in w.orders || Key(t, b) in w.done)
  }

  /** A NOT FOUND reply is the last a transaction gets, and only such a reply refuses it. */
  ghost predicate RefusalOk(tx: Tx) {
    && (forall i :: 0 <= i < |tx.ops| && tx.ops[i].answer.NotFound? ==>
        i == |tx.ops| - 1 && (tx.phase.Refused? || tx.phase.Aborted?))
    && (tx.phase.Refused? ==> |tx.ops| > 0 && tx.ops[|tx.ops| - 1].answer.NotFound?)
  }

  ghost predicate TxOk(w: World, t: Tid)
    requires t in w.txs
  {
    var tx := w.txs[t];
    && tx.related <= w.apps.Keys && tx.yes <= tx.related
    && (forall i :: 0 <= i < |tx.ops| ==> tx.ops[i].branch in tx.related)
    && (forall b {:trigger CacheOk(w, t, b)} :: b in w.apps ==> CacheOk(w, t, b))
    && (!Finished(tx.phase) ==> forall i {:trigger OpOk(w, t, i)} :: 0 <= i < |tx.ops| ==> OpOk(w, t, i))
    && WaitOk(w, t) && VotingOk(w, t) && OrdersOk(w, t) && RefusalOk(tx)
  }

  ghost predicate NonNegative(app: App) {
    forall a {:trigger Get(app.committed, a)} :: Get(app.committed, a) >= 0
  }

  /** The transaction is decided to commit, and the branch has yet to apply it. */
  ghost predicate Pending(w: World, t: Tid, b: Branch)
    requires b in w.apps
  {
    t in w.txs && w.txs[t].phase.Committed? && t in w.apps[b].cache
  }

  ghost predicate Changes(w: World, t: Tid, b: Branch, a: Account)
    requires b in w.apps
  {
    Pending(w, t, b) && a in w.apps[b].cache[t]
  }

  /** The serial bank holds what the branch has committed, plus the changes of the one decided transaction
      that has yet to be applied to the account, if there is one. */
  ghost predicate Simulated(w: World, b: Branch, a: Account)
    requires b in w.apps
  {
    var serial := Replay(w.decided);
    var app := w.apps[b];
    && (forall t {:trigger Changes(w, t, b, a)} :: Changes(w, t, b, a) ==>
          (b, a) in serial && serial[(b, a)] == Get(app.committed, a) + app.cache[t][a])
    && ((forall t {:trigger Changes(w, t, b, a)} :: !Changes(w, t, b, a)) ==>
          ((b, a) in serial <==> a in app.committed) && (a in app.committed ==> serial[(b, a)] == app.committed[a]))
  }

  ghost predicate Inv(w: World) {
    && (forall b {:trigger TableOk(w.apps[b])} :: b in w.apps ==> TableOk(w.apps[b]))
    && (forall b {:trigger NonNegative(w.apps[b])} :: b in w.apps ==> NonNegative(w.apps[b]))
    && (forall t {:trigger TxOk(w, t)} :: t in w.txs ==> TxOk(w, t))
    && (forall b, t :: b in w.apps && t in w.apps[b].cache ==> t in w.txs)
    && (forall key :: key in w.votes || key in w.orders || key in w.done ==> key.tid in w.txs)
    && (forall b, a {:trigger Simulated(w, b, a)} :: b in w.apps ==> Simulated(w, b, a))
    && (forall k :: k in Replay(w.decided) ==> k.0 in w.apps)
  }
}
