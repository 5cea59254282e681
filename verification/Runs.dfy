/** Runs of a system, whatever its states. */
module Runs {

  /** The state after state `i` is one of those `next` allows. */
  ghost predicate Linked<S(!new)>(ws: seq<S>, next: (S, S) -> bool, i: nat) {
    i + 1 < |ws| ==> next(ws[i], ws[i + 1])
  }

  /** The states of a run, from the initial one on. */
  ghost predicate Steps<S(!new)>(ws: seq<S>, init: S, next: (S, S) -> bool) {
    && |ws| > 0 && ws[0] == init
    && forall i {:trigger Linked(ws, next, i)} :: 0 <= i < |ws| - 1 ==> Linked(ws, next, i)
  }

  function Last<S>(ws: seq<S>): S
    requires |ws| > 0
  {
    ws[|ws| - 1]
  }

  /** A run goes on with any step from its last state. */
  lemma Extended<S(!new)>(ws: seq<S>, init: S, next: (S, S) -> bool, w: S)
    requires Steps(ws, init, next) && next(Last(ws), w)
    ensures Steps(ws + [w], init, next)
  {
    forall i | 0 <= i < |ws| ensures Linked(ws + [w], next, i) {
      if i < |ws| - 1 { assert Linked(ws, next, i); }
    }
  }

  lemma StepAt<S(!new)>(ws: seq<S>, init: S, next: (S, S) -> bool, i: nat)
    requires Steps(ws, init, next) && i + 1 < |ws|
    ensures next(ws[i], ws[i + 1])
  {
    assert Linked(ws, next, i);
  }

  /** What has happened so far is a run too. */
  lemma Before<S(!new)>(ws: seq<S>, init: S, next: (S, S) -> bool, n: nat)
    requires Steps(ws, init, next) && 0 < n <= |ws|
    ensures Steps(ws[..n], init, next)
  {
    forall i | 0 <= i < n - 1 ensures Linked(ws[..n], next, i) { assert Linked(ws, next, i); }
  }
}
