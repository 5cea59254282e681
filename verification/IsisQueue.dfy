/** The hold-back queue: a heap of messages. */
module IsisQueue {
  import opened IsisHeap

  // `MessagePQ` with the loops of `container/heap` over its `Less` and `Swap`.

  /** `Message`, less the payload. */
  class Message {
    const id: nat
    const sender: nat
    var priority: int
    var index: int
    var isDeliverable: bool

    constructor (id: nat, sender: nat, priority: int)
      ensures this.id == id && this.sender == sender && this.priority == priority && !isDeliverable && index == -1
    {
      this.id, this.sender, this.priority := id, sender, priority;
      isDeliverable, index := false, -1;
    }

    ghost function Rank(): Key
      reads this
    {
      Key(priority, sender)
    }
  }

  ghost function Keys(items: seq<Message>): (keys: seq<Key>)
    reads items
    ensures |keys| == |items| && forall i :: 0 <= i < |items| ==> keys[i] == items[i].Rank()
  {
    seq(|items|, i requires 0 <= i < |items| reads items => items[i].Rank())
  }

  /** Every message records its own position; in particular none is there twice. */
  ghost predicate Placed(items: seq<Message>)
    reads items
  {
    forall i :: 0 <= i < |items| ==> items[i].index == i
  }

  lemma SwapConserves<T>(s: seq<T>, i: nat, j: nat)
    requires i < |s| && j < |s|
    ensures multiset(Swapped(s, i, j)) == multiset(s)
    ensures forall x :: x in Swapped(s, i, j) <==> x in s
  {
    var s' := Swapped(s, i, j);
    assert multiset(s') == multiset(s);
    forall x ensures x in s' <==> x in s { assert x in multiset(s') <==> x in multiset(s); }
  }

  lemma SwapBelow<T>(s: seq<T>, i: nat, j: nat, n: nat)
    requires i < n <= |s| && j < n
    ensures Swapped(s, i, j)[n..] == s[n..]
  {}

  /** Nothing in the queue comes before its head. */
  lemma HeadFirst(items: seq<Message>)
    requires |items| > 0 && HeapOk(Keys(items), |items|)
    ensures forall m :: m in items ==> !Less(m.Rank(), items[0].Rank())
  {
    forall k | 0 <= k < |items| ensures !Less(items[k].Rank(), items[0].Rank()) {
      HeadIsMinimal(Keys(items), |items|, k);
    }
  }

  lemma SameMembers(items: seq<Message>, before: seq<Message>)
    requires multiset(items) == multiset(before)
    ensures forall m :: m in items <==> m in before
  {
    forall m ensures m in items <==> m in before { assert m in items <==> m in multiset(items); }
  }

  lemma MembersOfSum(items: seq<Message>, rest: seq<Message>, message: Message)
    requires multiset(items) == multiset(rest) + multiset{message}
    ensures forall m :: m in items <==> m in rest || m == message
  {
    forall m ensures m in items <==> m in rest || m == message { assert m in items <==> m in multiset(items); }
  }

  class MessagePQ {
    var items: seq<Message>

    ghost predicate Valid()
      reads this, items
    {
      Placed(items) && HeapOk(Keys(items), |items|)
    }

    constructor ()
      ensures Valid() && items == []
    {
      items := [];
    }

    method Less(i: nat, j: nat) returns (r: bool)
      requires i < |items| && j < |items|
      ensures r == IsisHeap.Less(Keys(items)[i], Keys(items)[j])
    {
      if items[i].priority < items[j].priority
        || (items[i].priority == items[j].priority && items[i].sender < items[j].sender)
      {
        r := true;
      } else {
        r := false;
      }
    }

    /** The same messages with the same fields, but for their places. */
    twostate predicate Permuted()
      reads this, items
    {
      && |items| == |old(items)| && multiset(items) == multiset(old(items))
      && (forall m :: m in old(items) ==> m in items)
      && (forall m :: m in items ==>
          m in old(items) && m.priority == old(m.priority) && m.isDeliverable == old(m.isDeliverable))
    }

    method Swap(i: nat, j: nat)
      requires Placed(items) && i < |items| && j < |items|
      modifies this, items
      ensures items == Swapped(old(items), i, j) && Placed(items) && Permuted()
      ensures Keys(items) == Swapped(old(Keys(items)), i, j)
    {
      SwapConserves(items, i, j);
      items := items[i := items[j]][j := items[i]];
      items[i].index := i;
      items[j].index := j;
    }

    /** `up` of `container/heap`; the first `n` items are the heap. */
    method Up(from: nat, ghost n: nat)
      requires Placed(items) && from < n <= |items| && UpOk(Keys(items), n, from)
      modifies this, items
      ensures Placed(items) && Permuted() && HeapOk(Keys(items), n) && items[n..] == old(items[n..])
      ensures from == 0 || Edge(old(Keys(items)), from) ==> items == old(items)
    {
      var j: nat := from;
      while true
        invariant Placed(items) && Permuted() && items[n..] == old(items[n..])
        invariant if j == from then items == old(items) else from > 0 && !Edge(old(Keys(items)), from)
        invariant j < n && UpOk(Keys(items), n, j)
        decreases j
      {
        var i: nat := Parent(j);
        if i == j { break; }
        var less := Less(j, i);
        if !less { break; }
        SwapUp(Keys(items), n, j);
        SwapBelow(items, i, j, n);
        Swap(i, j);
        j := i;
      }
      UpDone(Keys(items), n, j);
    }

    /** The child of `i` that comes first. */
    method FirstChild(i: nat, n: nat) returns (j: nat)
      requires 2 * i + 1 < n <= |items|
      ensures j == Child(Keys(items), n, i)
    {
      var j2: nat := 2 * i + 2;
      j := 2 * i + 1;
      if j2 < n {
        var right := Less(j2, j);
        if right { j := j2; }
      }
    }

    /** One round of the loop of `down`: the message at `i` changes places with its first child, or is where it
        belongs. */
    method Sink(i: nat, n: nat) returns (j: nat)
      requires Placed(items) && 2 * i + 1 < n <= |items| && FixOk(Keys(items), n, i)
      modifies this, items
      ensures Placed(items) && Permuted() && i <= j < n && items[n..] == old(items[n..])
      ensures j > i ==> FixOk(Keys(items), n, j) && Edge(Keys(items), j) && !InPlace(old(Keys(items)), n, i)
      ensures j == i ==> items == old(items) && FixOk(Keys(items), n, i)
      ensures j == i ==> !IsisHeap.Less(Keys(items)[Child(Keys(items), n, i)], Keys(items)[i])
    {
      j := FirstChild(i, n);
      var less := Less(j, i);
      if less {
        SwapDown(Keys(items), n, i);
        SwapBelow(items, i, j, n);
        Swap(i, j);
      } else {
        j := i;
      }
    }

    /** `down` of `container/heap`, among the first `n` items. */
    method Down(from: nat, n: nat) returns (moved: bool)
      requires Placed(items) && from < n <= |items| && FixOk(Keys(items), n, from)
      modifies this, items
      ensures Placed(items) && Permuted() && items[n..] == old(items[n..])
      ensures if moved then HeapOk(Keys(items), n) else items == old(items) && UpOk(Keys(items), n, from)
      ensures InPlace(old(Keys(items)), n, from) ==> !moved
    {
      var i: nat := from;
      while 2 * i + 1 < n
        invariant Placed(items) && Permuted() && items[n..] == old(items[n..])
        invariant from <= i < n && FixOk(Keys(items), n, i)
        invariant if i > from then Edge(Keys(items), i) else items == old(items)
        invariant InPlace(old(Keys(items)), n, from) ==> i == from
        decreases n - i
      {
        ghost var first := i == from;
        assert first ==> Keys(items) == old(Keys(items));
        var j := Sink(i, n);
        if j == i { break; }
        assert first ==> !InPlace(old(Keys(items)), n, from);
        i := j;
      }
      DownDone(Keys(items), n, i);
      moved := i > from;
      if moved { UpDone(Keys(items), n, i); }
    }

    /** `heap.Fix`: the message at `i` has been given a new priority. */
    method Fix(i: nat)
      requires Placed(items) && i < |items| && FixOk(Keys(items), |items|, i)
      modifies this, items
      ensures Valid() && Permuted()
      ensures InPlace(old(Keys(items)), |old(items)|, i) ==> items == old(items)
    {
      var moved := Down(i, |items|);
      if !moved { Up(i, |items|); }
    }

    /** `heap.Push`. */
    method Push(message: Message)
      requires Valid() && message !in items
      modifies this, items, message
      ensures Valid() && |items| == |old(items)| + 1 && multiset(items) == multiset(old(items)) + multiset{message}
      ensures SameFields(old(items) + [message]) && forall m :: m in items <==> m in old(items) || m == message
      ensures InPlace(old(Keys(items)) + [message.Rank()], |old(items)| + 1, |old(items)|) ==>
        items == old(items) + [message]
    {
      ghost var keys := Keys(items);
      message.index := |items|;
      items := items + [message];
      assert Keys(items) == keys + [message.Rank()];
      IsisHeap.Appended(keys, message.Rank());
      Up(|items| - 1, |items|);
      MembersOfSum(items, old(items), message);
    }

    /** `Pop` of the queue: the last message leaves. */
    method DropLast() returns (message: Message)
      requires Placed(items) && |items| > 0 && HeapOk(Keys(items), |items| - 1)
      modifies this, items
      ensures old(items) == items + [message] && message.index == -1
      ensures Valid() && SameFields(old(items))
    {
      ghost var keys := Keys(items);
      var n: nat := |items| - 1;
      message := items[n];
      items := items[..n];
      message.index := -1;
      if n > 0 { Shorter(keys, Keys(items), n, 0); }
    }

    /** `heap.Pop`: the head leaves, and nothing that stays comes before it. */
    method Pop() returns (message: Message)
      requires Valid() && |items| > 0
      modifies this, items
      ensures Valid() && message == old(items)[0] && message.index == -1 && SameFields(old(items))
      ensures |items| == |old(items)| - 1 && multiset(old(items)) == multiset(items) + multiset{message}
      ensures forall m :: m in old(items) <==> m in items || m == message
      ensures message !in items && forall m :: m in items ==> !IsisHeap.Less(m.Rank(), message.Rank())
    {
      HeadFirst(items);
      ghost var head := items[0].Rank();
      message := DropHead();
      MembersOfSum(old(items), items, message);
      forall m | m in items ensures !IsisHeap.Less(m.Rank(), message.Rank()) {
        assert m.Rank() == old(m.Rank()) && message.Rank() == head;
      }
    }

    method DropHead() returns (message: Message)
      requires Valid() && |items| > 0
      modifies this, items
      ensures Valid() && message == old(items)[0] && message.index == -1 && SameFields(old(items))
      ensures |items| == |old(items)| - 1 && multiset(old(items)) == multiset(items) + multiset{message}
    {
      var n: nat := |items| - 1;
      HeadToEnd(n);
      message := DropLast();
    }

    method HeadToEnd(n: nat)
      requires Valid() && n == |items| - 1
      modifies this, items
      ensures Placed(items) && Permuted() && HeapOk(Keys(items), n) && items[n] == old(items)[0]
    {
      if n > 0 { LastMoved(Keys(items), n, 0); }
      Swap(0, n);
      if n > 0 {
        ghost var tail := items[n..];
        var moved := Down(0, n);
        if !moved { UpDone(Keys(items), n, 0); }
        assert items[n] == tail[0];
      }
    }

    /** `heap.Remove`, for a message that is in the queue. */
    method Remove(message: Message)
      requires Valid() && message in items
      modifies this, items
      ensures Valid() && message.index == -1 && SameFields(old(items))
      ensures multiset(old(items)) == multiset(items) + multiset{message}
    {
      MoveToEnd(message.index);
      var _ := DropLast();
    }

    /** The message at `i` goes to the end, and the rest is a heap. */
    method MoveToEnd(i: nat)
      requires Valid() && i < |items|
      modifies this, items
      ensures Placed(items) && Permuted() && HeapOk(Keys(items), |items| - 1) && items[|items| - 1] == old(items)[i]
    {
      var n: nat := |items| - 1;
      if n != i {
        LastMoved(Keys(items), n, i);
        Swap(i, n);
        assert items[n] == old(items)[i];
        Restore(i, n);
      } else if n > 0 {
        Shorter(Keys(items), Keys(items), n, 0);
      }
    }

    /** The first `n` items become a heap again. */
    method Restore(i: nat, n: nat)
      requires Placed(items) && i < n < |items| && FixOk(Keys(items), n, i)
      modifies this, items
      ensures Placed(items) && Permuted() && HeapOk(Keys(items), n) && items[n] == old(items)[n]
    {
      ghost var tail := items[n..];
      var moved := Down(i, n);
      if !moved { Up(i, n); }
      assert items[n] == tail[0];
    }

    /** A message in the queue gets another priority. */
    method Update(message: Message, priority: int)
      requires Valid() && message in items
      modifies this, items
      ensures Valid() && multiset(items) == multiset(old(items)) && message.priority == priority
      ensures forall m :: m in items <==> m in old(items)
      ensures InPlace(old(Keys(items))[old(message.index) := message.Rank()], |old(items)|, old(message.index)) ==>
        items == old(items)
      ensures forall m :: m in old(items) ==>
          m.isDeliverable == old(m.isDeliverable) && (m != message ==> m.priority == old(m.priority))
    {
      ghost var keys := Keys(items);
      message.priority := priority;
      assert Keys(items) == keys[message.index := message.Rank()];
      Rekeyed(keys, |items|, message.index, message.Rank());
      Fix(message.index);
      SameMembers(items, old(items));
    }

    /** The first message with this id, if any. */
    method FindById(id: nat) returns (message: Message?)
      ensures message != null ==> message in items && message.id == id
      ensures message == null ==> forall m :: m in items ==> m.id != id
    {
      for i := 0 to |items|
        invariant forall k :: 0 <= k < i ==> items[k].id != id
      {
        if items[i].id == id { return items[i]; }
      }
      message := null;
    }
  }

  /** The messages have kept their priorities and marks. */
  twostate predicate SameFields(messages: seq<Message>)
    reads messages
  {
    forall m :: m in messages ==> m.priority == old(m.priority) && m.isDeliverable == old(m.isDeliverable)
  }
}
