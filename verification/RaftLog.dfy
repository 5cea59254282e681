/** The log merge, and delivery. */
module RaftLog {
  import opened RaftTypes

  /** True iff the entry meant for position prev + 1 + i is missing from the log or conflicts with it. */
  predicate New(log: seq<LogEntry>, prev: int, entries: seq<LogEntry>, i: nat)
    requires -1 <= prev && i < |entries|
  {
    |log| <= prev + 1 + i || log[prev + 1 + i].term != entries[i].term
  }

  /** The first entry, from `i` on, that is missing or conflicting. */
  function FirstNew(log: seq<LogEntry>, prev: int, entries: seq<LogEntry>, i: nat): (r: nat)
    requires -1 <= prev && i <= |entries|
    ensures i <= r <= |entries|
    ensures i < r ==> prev + r < |log|
    ensures forall j :: i <= j < r ==> !New(log, prev, entries, j)
    ensures r < |entries| ==> New(log, prev, entries, r)
    decreases |entries| - i
  {
    if i == |entries| || New(log, prev, entries, i) then i else FirstNew(log, prev, entries, i + 1)
  }

  /** Keep the log up to the first missing or conflicting entry, then append the rest. */
  function Merge(log: seq<LogEntry>, prev: int, entries: seq<LogEntry>): seq<LogEntry>
    requires -1 <= prev < |log|
  {
    var i := FirstNew(log, prev, entries, 0);
    if i == |entries| then log else log[..prev + 1 + i] + entries[i..]
  }

  /** The entries from + 1 .. to, as messages for `applyCh`. */
  function Deliveries(log: seq<LogEntry>, from: nat, to: nat): (r: seq<ApplyMsg>)
    ensures to < |log| ==> |r| == (if from < to then to - from else 0)
    ensures |r| > 0 ==> from + |r| < |log| && from + |r| <= to
    ensures forall j :: 0 <= j < |r| ==>
                          r[j] == ApplyMsg(true, log[from + 1 + j].command, log[from + 1 + j].index)
    decreases |log| - from
  {
    if from < to && from + 1 < |log| then
      [ApplyMsg(true, log[from + 1].command, log[from + 1].index)] + Deliveries(log, from + 1, to)
    else []
  }

  /** Entries that continue a log from position prev + 1. */
  predicate Contiguous(prev: int, entries: seq<LogEntry>) {
    forall i :: 0 <= i < |entries| ==> entries[i].index == prev + 1 + i
  }

  lemma FirstNewIsUnique(log: seq<LogEntry>, prev: int, entries: seq<LogEntry>, r: nat)
    requires -1 <= prev && r <= |entries|
    requires forall j :: 0 <= j < r ==> !New(log, prev, entries, j)
    requires r < |entries| ==> New(log, prev, entries, r)
    ensures FirstNew(log, prev, entries, 0) == r
  {}

  /** What the merge means position by position: what precedes the first new entry is untouched, from there on the
      log has the received entries themselves, before it entries of the same terms, nothing after the received ones
      survives a conflict, and a log that already holds all of them is not shortened. */
  lemma MergeEffect(log: seq<LogEntry>, prev: int, entries: seq<LogEntry>)
    requires -1 <= prev < |log|
    ensures var r := Merge(log, prev, entries);
      && |r| >= prev + 1 + |entries|
      && var first := FirstNew(log, prev, entries, 0);
      && prev + 1 + first <= |log| && r[..prev + 1 + first] == log[..prev + 1 + first]
      && (forall i :: first <= i < |entries| ==> r[prev + 1 + i] == entries[i])
      && (forall i :: 0 <= i < |entries| ==> r[prev + 1 + i].term == entries[i].term)
      && (r == log || |r| == prev + 1 + |entries|)
      && ((forall i :: 0 <= i < |entries| ==> !New(log, prev, entries, i)) <==>
          (r == log && |log| >= prev + 1 + |entries|))
  {
    var i := FirstNew(log, prev, entries, 0);
    if i < |entries| {
      if i > 0 { assert !New(log, prev, entries, i - 1); }
      var r := Merge(log, prev, entries);
      assert r == log[..prev + 1 + i] + entries[i..];
      forall j | 0 <= j < |entries| ensures r[prev + 1 + j].term == entries[j].term {
        if j < i { assert !New(log, prev, entries, j); }
      }
      assert r[prev + 1 + i] == entries[i];
    } else {
      if |entries| > 0 { assert !New(log, prev, entries, |entries| - 1); }
      forall j | 0 <= j < |entries| ensures log[prev + 1 + j].term == entries[j].term {
        assert !New(log, prev, entries, j);
      }
    }
  }

  /** Receiving the same message twice changes nothing the second time. */
  lemma MergeIsIdempotent(log: seq<LogEntry>, prev: int, entries: seq<LogEntry>)
    requires -1 <= prev < |log|
    ensures prev < |Merge(log, prev, entries)|
    ensures Merge(Merge(log, prev, entries), prev, entries) == Merge(log, prev, entries)
  {
    MergeEffect(log, prev, entries);
    var r := Merge(log, prev, entries);
    forall i | 0 <= i < |entries| ensures !New(r, prev, entries, i) {}
    FirstNewIsUnique(r, prev, entries, |entries|);
  }

  lemma MergeKeepsIndexed(log: seq<LogEntry>, prev: int, entries: seq<LogEntry>)
    requires -1 <= prev < |log| && Indexed(log) && Contiguous(prev, entries)
    ensures Indexed(Merge(log, prev, entries))
  {
    var i := FirstNew(log, prev, entries, 0);
    if 0 < i { assert !New(log, prev, entries, i - 1); }
  }
}
