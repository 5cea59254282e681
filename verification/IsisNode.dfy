/** The `Multicast` object: the three branches of `ISIS`, over the heap of IsisQueue. Each is proved against
    the function of IsisHandlers that the protocol steps use. */
module IsisNode {
  import opened IsisHeap
  import opened IsisHandlers
  import opened IsisQueue

  /** `out` can be delivered from the queue, in this order. */
  ghost predicate Takes(queue: map<Id, Item>, out: seq<Id>) {
    |out| == 0 || (Head(queue, out[0]) && queue[out[0]].deliverable && Takes(queue - {out[0]}, out[1..]))
  }

  lemma {:induction false} TakesOne(queue: map<Id, Item>, out: seq<Id>, id: Id)
    requires Takes(queue, out) && Head(Left(queue, out), id) && Left(queue, out)[id].deliverable
    ensures Takes(queue, out + [id]) && Left(queue, out + [id]) == Left(queue, out) - {id}
    decreases |out|
  {
    var more := out + [id];
    if |out| == 0 {
      assert more == [id] && more[1..] == [];
    } else {
      TakesOne(queue - {out[0]}, out[1..], id);
      assert more[0] == out[0] && more[1..] == out[1..] + [id];
    }
  }

  /** All that can be delivered has been. */
  lemma {:induction false} TakesDrains(queue: map<Id, Item>, out: seq<Id>)
    requires Takes(queue, out) && Settled(Left(queue, out))
    ensures Drains(queue, out)
    decreases |out|
  {
    if |out| > 0 { TakesDrains(queue - {out[0]}, out[1..]); }
  }

  class Multicast {
    var p: int
    var messageCheck: set<Id>
    const pq: MessagePQ
    var proposed: map<Id, int>
    var repliers: map<Id, nat>
    /** The contents of the heap, by message. */
    ghost var queue: map<Id, Item>

    /** The queue holds received messages, each once. */
    ghost predicate Valid()
      reads this, pq, pq.items
    {
      && pq.Valid() && queue.Keys <= messageCheck
      && (forall m :: m in pq.items ==> m.id in queue && queue[m.id] == Item(m.Rank(), m.isDeliverable))
      && (forall id :: id in queue ==> exists m :: m in pq.items && m.id == id)
      && (forall m, m' :: m in pq.items && m' in pq.items && m.id == m'.id ==> m == m')
    }

    ghost function State(): Node
      reads this
    {
      Node(p, messageCheck, queue, proposed, repliers)
    }

    constructor ()
      ensures Valid() && fresh(pq) && pq.items == [] && State() == FRESH
    {
      p, messageCheck, proposed, repliers, queue := 0, {}, map[], map[], map[];
      pq := new MessagePQ();
    }

    /** Status "i". A message received before is dropped; else the priority to propose is returned. */
    method HandleInitial(id: Id, sender: nat) returns (isNew: bool, priority: int)
      requires Valid()
      modifies this, pq, pq.items
      ensures Valid() && forall m :: m in pq.items ==> m in old(pq.items) || fresh(m)
      ensures isNew == (id !in old(messageCheck))
      ensures if isNew then State() == OnInitial(old(State()), id, sender) && priority == p else State() == old(State())
    {
      isNew, priority := id !in messageCheck, 0;
      if isNew { priority := Enqueue(id, sender); }
    }

    /** A new message goes into the queue, with the next priority of this node. */
    method Enqueue(id: Id, sender: nat) returns (priority: int)
      requires Valid() && id !in messageCheck
      modifies this, pq, pq.items
      ensures Valid() && forall m :: m in pq.items ==> m in old(pq.items) || fresh(m)
      ensures State() == OnInitial(old(State()), id, sender) && priority == p
    {
      messageCheck := messageCheck + {id};
      p := Max(A, p) + 1;
      priority := p;
      var message := new Message(id, sender, priority);
      Insert(message);
    }

    method Insert(message: Message)
      requires Valid() && message.id in messageCheck && message.id !in queue && message !in pq.items
      modifies this`queue, pq, pq.items, message
      ensures Valid() && queue == old(queue)[message.id := Item(old(message.Rank()), old(message.isDeliverable))]
      ensures forall m :: m in pq.items <==> m in old(pq.items) || m == message
    {
      ghost var before := pq.items;
      pq.Push(message);
      queue := queue[message.id := Item(message.Rank(), message.isDeliverable)];
      forall m | m in pq.items ensures m.id in queue && queue[m.id] == Item(m.Rank(), m.isDeliverable) {
        if m != message { assert m in before && m.id in old(queue); }
      }
      forall id | id in queue ensures exists m :: m in pq.items && m.id == id {
        if id != message.id {
          var m :| m in before && m.id == id;
          assert m in pq.items;
        } else {
          assert message in pq.items;
        }
      }
    }

    /** Status "p". When the round is complete, the highest proposal is to be announced. */
    method HandleProposal(id: Id, priority: int, aliveNodes: nat) returns (announce: bool, maxPri: int)
      requires Valid()
      modifies this`proposed, this`repliers
      ensures Valid() && State() == OnProposal(old(State()), id, priority)
      ensures announce == Completes(old(State()), id, aliveNodes) && maxPri == Highest(old(State()), id, priority)
    {
      announce := false;
      if id !in proposed {
        proposed := proposed[id := priority];
      } else if priority > proposed[id] {
        proposed := proposed[id := priority];
      }
      if id !in repliers {
        repliers := repliers[id := 1];
      } else {
        var numOfReply := repliers[id];
        repliers := repliers[id := numOfReply + 1];
        if numOfReply + 1 == aliveNodes {
          announce := true;
        }
      }
      maxPri := proposed[id];
    }

    /** Status "a". */
    method HandleAgreed(id: Id, priority: int) returns (out: seq<Id>)
      requires Valid() && id in queue
      modifies this`queue, pq, pq.items
      ensures Valid() && forall m :: m in pq.items ==> m in old(pq.items)
      ensures var agreed := OnAgreed(old(State()), id, priority);
        Drains(agreed.queue, out) && State() == agreed.(queue := Left(agreed.queue, out))
    {
      Agree(id, priority);
      out := Drain();
    }

    method Agree(id: Id, priority: int)
      requires Valid() && id in queue
      modifies this`queue, pq, pq.items
      ensures Valid() && State() == OnAgreed(old(State()), id, priority)
      ensures forall m :: m in pq.items <==> m in old(pq.items)
    {
      var message := pq.FindById(id);
      queue := queue[id := Item(Key(priority, message.sender), true)];
      ghost var keys := Keys(pq.items);
      message.isDeliverable := true;
      assert Keys(pq.items) == keys;
      pq.Update(message, priority);
    }

    /** The delivery loop. */
    method Drain() returns (out: seq<Id>)
      requires Valid()
      modifies this`queue, pq, pq.items
      ensures Valid() && forall m :: m in pq.items ==> m in old(pq.items)
      ensures Drains(old(queue), out) && queue == Left(old(queue), out)
    {
      out := [];
      while |pq.items| > 0 && pq.items[0].isDeliverable
        invariant Valid() && forall m :: m in pq.items ==> m in old(pq.items)
        invariant Takes(old(queue), out) && queue == Left(old(queue), out)
        decreases |pq.items|
      {
        ghost var before := queue;
        var id := DeliverHead();
        TakesOne(old(queue), out, id);
        out := out + [id];
      }
      AtRest();
      TakesDrains(old(queue), out);
    }

    /** The loop has ended. */
    lemma AtRest()
      requires Valid() && (|pq.items| > 0 ==> !pq.items[0].isDeliverable)
      ensures Settled(queue)
    {
      if |pq.items| > 0 {
        HeadFirst(pq.items);
        assert Head(queue, pq.items[0].id);
      } else {
        assert queue == map[];
      }
    }

    method DeliverHead() returns (id: Id)
      requires Valid() && |pq.items| > 0 && pq.items[0].isDeliverable
      modifies this`queue, pq, pq.items
      ensures Valid() && |pq.items| < old(|pq.items|) && forall m :: m in pq.items ==> m in old(pq.items)
      ensures Head(old(queue), id) && old(queue)[id].deliverable && queue == old(queue) - {id}
    {
      HeadFirst(pq.items);
      var message := pq.Pop();
      id := message.id;
      queue := queue - {id};
    }
  }
}
