/** The reference: one transaction at a time. */
module BankSerial {
  import opened BankBranch

  // A bank that runs transactions directly on its balances, without locks or caches.

  type Branch = nat

  /** A command of a transaction with the reply it got. */
  datatype Op = Op(branch: Branch, account: Account, command: Command, answer: Answer)

  type Balances = map<(Branch, Account), int>

  function SerialAnswer(bal: Balances, op: Op): Answer {
    if op.command.Deposit? then Done
    else if (op.branch, op.account) !in bal then NotFound
    else if op.command.Withdraw? then Done
    else Amount(bal[(op.branch, op.account)])
  }

  function SerialStep(bal: Balances, op: Op): Balances {
    var k := (op.branch, op.account);
    match op.command
    case Deposit(n) => bal[k := (if k in bal then bal[k] else 0) + n]
    case Withdraw(n) => if k in bal then bal[k := bal[k] - n] else bal
    case Balance => bal
  }

  function SerialRun(bal: Balances, ops: seq<Op>): Balances {
    if |ops| == 0 then bal else SerialStep(SerialRun(bal, ops[..|ops| - 1]), ops[|ops| - 1])
  }

  /** Run whole transactions one after the other, from an empty bank. */
  function Replay(txs: seq<seq<Op>>): Balances {
    if |txs| == 0 then map[] else SerialRun(Replay(txs[..|txs| - 1]), txs[|txs| - 1])
  }

  // ---------- The same transaction seen through cached changes ----------

  /** The changes a transaction's commands make at branch `b`. */
  function Deltas(ops: seq<Op>, b: Branch): map<Account, int> {
    if |ops| == 0 then map[]
    else
      var op := ops[|ops| - 1];
      var before := Deltas(ops[..|ops| - 1], b);
      if op.branch == b then Change(op.command, op.answer, before, op.account) else before
  }

  lemma DeltasSnoc(ops: seq<Op>, op: Op, b: Branch)
    ensures Deltas(ops + [op], b) ==
            if op.branch == b then Change(op.command, op.answer, Deltas(ops, b), op.account) else Deltas(ops, b)
  {
    assert (ops + [op])[..|ops|] == ops;
  }

  /** The reply to a command of `ops[i]`'s kind given the commands before it and the balances `bal` at the start. */
  function AnswerOn(bal: Balances, ops: seq<Op>, i: nat): Answer
    requires i < |ops|
  {
    var op := ops[i];
    var k := (op.branch, op.account);
    AnswerWith(op.command, k in bal, if k in bal then bal[k] else 0, Deltas(ops[..i], op.branch), op.account)
  }

  ghost predicate Overlaid(bal: Balances, after: Balances, ops: seq<Op>, b: Branch, a: Account) {
    && ((b, a) in after <==> (b, a) in bal || a in Deltas(ops, b))
    && ((b, a) in after ==> after[(b, a)] == (if (b, a) in bal then bal[(b, a)] else 0) + Get(Deltas(ops, b), a))
  }

  /** Writes got the replies the serial bank would have given. */
  ghost predicate WritesAgree(bal: Balances, ops: seq<Op>) {
    forall i {:trigger AnswerOn(bal, ops, i)} :: 0 <= i < |ops| && !IsRead(ops[i].command) ==>
        ops[i].answer == AnswerOn(bal, ops, i)
  }

  /** Running a transaction on the balances and adding its cached changes to them at the end are the same. */
  lemma {:induction false} RunIsOverlay(bal: Balances, ops: seq<Op>, b: Branch, a: Account)
    requires WritesAgree(bal, ops)
    ensures Overlaid(bal, SerialRun(bal, ops), ops, b, a)
  {
    if |ops| > 0 {
      var n := |ops| - 1;
      var before := ops[..n];
      forall i | 0 <= i < n && !IsRead(before[i].command) ensures before[i].answer == AnswerOn(bal, before, i) {
        assert before[..i] == ops[..i];
        assert ops[i].answer == AnswerOn(bal, ops, i);
      }
      RunIsOverlay(bal, before, b, a);
      RunIsOverlay(bal, before, ops[n].branch, ops[n].account);
      assert !IsRead(ops[n].command) ==> ops[n].answer == AnswerOn(bal, ops, n);
    }
  }

  /** The serial bank's reply to command `i`, after running the commands before it. */
  function SerialReply(bal: Balances, ops: seq<Op>, i: nat): Answer
    requires i < |ops|
  {
    SerialAnswer(SerialRun(bal, ops[..i]), ops[i])
  }

  lemma ReplyIsAnswer(bal: Balances, ops: seq<Op>, i: nat)
    requires WritesAgree(bal, ops) && i < |ops|
    ensures SerialReply(bal, ops, i) == AnswerOn(bal, ops, i)
  {
    var before := ops[..i];
    forall j | 0 <= j < i && !IsRead(before[j].command) ensures before[j].answer == AnswerOn(bal, before, j) {
      assert before[..j] == ops[..j];
      assert ops[j].answer == AnswerOn(bal, ops, j);
    }
    RunIsOverlay(bal, before, ops[i].branch, ops[i].account);
  }

  // ---------- Which replies must be the serial ones ----------

  predicate SameAccount(p: Op, q: Op) {
    p.branch == q.branch && p.account == q.account
  }

  /** Every reply but those to reads made before a lock upgrade: the command, or an earlier one on the
      account, writes it, or no command of the transaction does. */
  ghost predicate UnderLastLock(ops: seq<Op>, i: nat)
    requires i < |ops|
  {
    || (exists j :: 0 <= j <= i && SameAccount(ops[j], ops[i]) && !IsRead(ops[j].command))
    || (forall j :: 0 <= j < |ops| && SameAccount(ops[j], ops[i]) ==> IsRead(ops[j].command))
  }
}
