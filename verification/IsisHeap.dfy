/** The order of a binary heap. */
module IsisHeap {

  /** What `Less` compares: priority first, then the sender's number. */
  datatype Key = Key(priority: int, sender: int)

  predicate Less(a: Key, b: Key) {
    a.priority < b.priority || (a.priority == b.priority && a.sender < b.sender)
  }

  /** `(j-1)/2`, which truncates to 0 at the root. */
  function Parent(j: nat): nat {
    if j == 0 then 0 else (j - 1) / 2
  }

  lemma ParentOf(j: nat, i: nat)
    requires j > 0
    ensures Parent(j) < j
    ensures Parent(j) == i <==> j == 2 * i + 1 || j == 2 * i + 2
  {}

  /** The item at `j` does not come before its parent. */
  predicate Edge(s: seq<Key>, j: nat)
    requires j < |s|
  {
    !Less(s[j], s[Parent(j)])
  }

  /** The first `n` items are in heap order. */
  ghost predicate HeapOk(s: seq<Key>, n: nat)
    requires n <= |s|
  {
    forall j {:trigger Edge(s, j)} :: 0 < j < n ==> Edge(s, j)
  }

  /** Children of `i` do not come before the parent of `i`. */
  ghost predicate Across(s: seq<Key>, n: nat, i: nat)
    requires i < n <= |s|
  {
    forall j {:trigger Parent(j)} :: 0 < j < n && Parent(j) == i && i > 0 ==> !Less(s[j], s[Parent(i)])
  }

  /** Heap order, but for the edge from `i` to its parent. */
  ghost predicate UpOk(s: seq<Key>, n: nat, i: nat)
    requires i < n <= |s|
  {
    Across(s, n, i) && forall j {:trigger Edge(s, j)} :: 0 < j < n && j != i ==> Edge(s, j)
  }

  /** Heap order, but for the edges at `i`. */
  ghost predicate FixOk(s: seq<Key>, n: nat, i: nat)
    requires i < n <= |s|
  {
    Across(s, n, i) && forall j {:trigger Edge(s, j)} :: 0 < j < n && j != i && Parent(j) != i ==> Edge(s, j)
  }

  function Swapped<T>(s: seq<T>, i: nat, j: nat): seq<T>
    requires i < |s| && j < |s|
  {
    s[i := s[j]][j := s[i]]
  }

  /** An exchange of `up`. */
  lemma SwapUp(s: seq<Key>, n: nat, j: nat)
    requires 0 < j < n <= |s| && UpOk(s, n, j) && Less(s[j], s[Parent(j)])
    ensures UpOk(Swapped(s, Parent(j), j), n, Parent(j))
  {
    var i := Parent(j);
    var s' := Swapped(s, i, j);
    forall k | 0 < k < n && k != i ensures Edge(s', k) {
      ParentOf(k, i);
      ParentOf(k, j);
      assert k != j ==> Edge(s, k);
    }
    forall k | 0 < k < n && Parent(k) == i && i > 0 ensures !Less(s'[k], s'[Parent(i)]) {
      assert Edge(s, i) && (k != j ==> Edge(s, k));
      ParentOf(k, i);
      ParentOf(i, i);
    }
  }

  /** The item is where it belongs below; what is left is its parent. */
  lemma UpDone(s: seq<Key>, n: nat, j: nat)
    requires j < n <= |s| && UpOk(s, n, j) && (j == 0 || Edge(s, j))
    ensures HeapOk(s, n)
  {}

  /** The child `down` compares with. */
  function Child(s: seq<Key>, n: nat, i: nat): nat
    requires 2 * i + 1 < n <= |s|
  {
    if 2 * i + 2 < n && Less(s[2 * i + 2], s[2 * i + 1]) then 2 * i + 2 else 2 * i + 1
  }

  /** The item at `i` is neither before its parent nor after a child. */
  predicate InPlace(s: seq<Key>, n: nat, i: nat)
    requires i < n <= |s|
  {
    (i == 0 || Edge(s, i)) && (2 * i + 1 < n ==> !Less(s[Child(s, n, i)], s[i]))
  }

  /** An exchange of `down`. */
  lemma SwapDown(s: seq<Key>, n: nat, i: nat)
    requires 2 * i + 1 < n <= |s| && FixOk(s, n, i) && Less(s[Child(s, n, i)], s[i])
    ensures var j := Child(s, n, i); var s' := Swapped(s, i, j); FixOk(s', n, j) && Edge(s', j)
    ensures var s' := Swapped(s, i, Child(s, n, i)); i > 0 ==> Edge(s', i)
  {
    var j := Child(s, n, i);
    var s' := Swapped(s, i, j);
    ParentOf(j, i);
    if i > 0 {
      ParentOf(i, i);
      assert Edge(s', i);
    }
    forall k | 0 < k < n && k != j && Parent(k) != j ensures Edge(s', k) {
      ParentOf(k, i);
      ParentOf(k, j);
      if k != i && Parent(k) != i { assert Edge(s, k); }
    }
    forall k | 0 < k < n && Parent(k) == j ensures !Less(s'[k], s'[Parent(j)]) {
      ParentOf(k, j);
      ParentOf(k, i);
      assert Edge(s, k);
    }
  }

  /** No child comes before the item at `i`. */
  lemma DownDone(s: seq<Key>, n: nat, i: nat)
    requires i < n <= |s| && FixOk(s, n, i) && (2 * i + 1 < n ==> !Less(s[Child(s, n, i)], s[i]))
    ensures UpOk(s, n, i)
  {
    forall k | 0 < k < n && k != i ensures Edge(s, k) {
      ParentOf(k, i);
      if Parent(k) != i { assert Edge(s, k); }
    }
  }

  /** A heap in which one item has been given another key. */
  lemma Rekeyed(s: seq<Key>, n: nat, i: nat, key: Key)
    requires i < n <= |s| && HeapOk(s, n)
    ensures FixOk(s[i := key], n, i)
  {
    var s' := s[i := key];
    forall k | 0 < k < n && k != i && Parent(k) != i ensures Edge(s', k) { assert Edge(s, k); }
    forall k | 0 < k < n && Parent(k) == i && i > 0 ensures !Less(s'[k], s'[Parent(i)]) {
      ParentOf(k, i);
      ParentOf(i, i);
      assert Edge(s, k) && Edge(s, i);
    }
  }

  /** A heap whose last item has changed places with the one at `i`. */
  lemma LastMoved(s: seq<Key>, n: nat, i: nat)
    requires i < n && |s| == n + 1 && HeapOk(s, n + 1)
    ensures FixOk(Swapped(s, i, n), n, i)
  {
    Rekeyed(s, n, i, s[n]);
    Shorter(s[i := s[n]], Swapped(s, i, n), n, i);
  }

  /** The order of the first `n` items depends on nothing else. */
  lemma Shorter(s: seq<Key>, s': seq<Key>, n: nat, i: nat)
    requires i < n <= |s| && n <= |s'| && forall j :: 0 <= j < n ==> s[j] == s'[j]
    ensures FixOk(s, n, i) ==> FixOk(s', n, i)
    ensures HeapOk(s, n) ==> HeapOk(s', n)
  {
    forall j | 0 < j < n ensures Edge(s, j) == Edge(s', j) { ParentOf(j, 0); }
    if i > 0 { ParentOf(i, 0); }
  }

  /** A heap with one more item at the end. */
  lemma Appended(s: seq<Key>, key: Key)
    requires HeapOk(s, |s|)
    ensures UpOk(s + [key], |s| + 1, |s|)
  {
    forall k | 0 < k < |s| ensures Edge(s + [key], k) {
      ParentOf(k, 0);
      assert Edge(s, k);
    }
    forall k | 0 < k < |s| + 1 ensures Parent(k) != |s| { ParentOf(k, |s|); }
  }

  /** The head comes before nothing else less than it. */
  lemma {:induction false} HeadIsMinimal(s: seq<Key>, n: nat, j: nat)
    requires j < n <= |s| && HeapOk(s, n)
    ensures !Less(s[j], s[0])
    decreases j
  {
    if j > 0 {
      ParentOf(j, 0);
      assert Edge(s, j);
      HeadIsMinimal(s, n, Parent(j));
    }
  }
}
