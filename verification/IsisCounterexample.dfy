/** A run that is not totally ordered. */
module IsisCounterexample {
  import opened Runs
  import opened IsisHeap
  import opened IsisHandlers
  import opened IsisQueue
  import opened IsisWorld
  import opened IsisSafety
  import opened IsisTheorems

  // Node 0 agrees on and delivers message 1 before it has received message 2. As its `A` does not follow, it
  // then proposes for message 2 no more than was agreed for message 1. Node 1, which has both in its queue,
  // delivers message 2 first.

  // ---------- Runs of two nodes, step by step ----------

  /** What the two nodes have delivered. */
  ghost predicate Out(w: World, out0: seq<Delivery>, out1: seq<Delivery>) {
    |w.delivered| == 2 && w.delivered[0] == out0 && w.delivered[1] == out1
  }

  lemma Extend(ws: seq<World>, step: Step) returns (more: seq<World>)
    requires Run(ws, 2) && Shape(Last(ws)) && Enabled(Last(ws), step)
    ensures Run(more, 2) && Inv(Last(more)) && |Last(more).nodes| == 2 && Last(more) == After(Last(ws), step)
  {
    more := ws + [After(Last(ws), step)];
    Extended(ws, Init(2), Next, After(Last(ws), step));
    RunInv(more, 2, |more| - 1);
  }

  /** Message 1 is from node `s`, message 2 from node 0. */
  function Sender(s: nat, id: Id): nat {
    if id == 1 then s else 0
  }

  /** The state of both nodes and the network. */
  ghost predicate At(w: World, s: nat, node0: Node, node1: Node, proposals: map<Slot, int>, agreed: map<Slot, int>) {
    && s < 2 && w.casts == map[1 := s, 2 := 0] && w.nodes == [node0, node1] && w.proposals == proposals
      && w.agreed == agreed
    && Inv(w)
  }

  lemma Receive(ws: seq<World>, s: nat, id: Id, x: nat, node0: Node, node1: Node,
          proposals: map<Slot, int>, agreed: map<Slot, int>)
    returns (more: seq<World>)
    requires Run(ws, 2) && At(Last(ws), s, node0, node1, proposals, agreed) && (id == 1 || id == 2) && x < 2
    requires id !in (if x == 0 then node0 else node1).messageCheck
    ensures Run(more, 2) && Last(more).delivered == Last(ws).delivered
    ensures var node := OnInitial(if x == 0 then node0 else node1, id, Sender(s, id));
      At(Last(more), s, if x == 0 then node else node0, if x == 1 then node else node1,
         proposals[Slot(id, x) := node.p], agreed)
  {
    more := Extend(ws, DeliverInitial(id, x));
  }

  /** The first proposal for message `id` reaches its sender. */
  lemma Propose(ws: seq<World>, s: nat, slot: Slot, node0: Node, node1: Node,
          proposals: map<Slot, int>, agreed: map<Slot, int>)
    returns (more: seq<World>)
    requires Run(ws, 2) && At(Last(ws), s, node0, node1, proposals, agreed) && slot in proposals
      && (slot.id == 1 || slot.id == 2)
    requires !Completes(if Sender(s, slot.id) == 1 then node1 else node0, slot.id, 2)
    ensures Run(more, 2) && Last(more).delivered == Last(ws).delivered
    ensures At(Last(more), s, if Sender(s, slot.id) == 1 then node0 else OnProposal(node0, slot.id, proposals[slot]),
               if Sender(s, slot.id) == 1 then OnProposal(node1, slot.id, proposals[slot]) else node1,
               proposals - {slot}, agreed)
  {
    more := Extend(ws, DeliverProposal(slot));
  }

  /** The second does too. */
  lemma Announce(ws: seq<World>, s: nat, slot: Slot, node0: Node, node1: Node,
          proposals: map<Slot, int>, agreed: map<Slot, int>)
    returns (more: seq<World>)
    requires Run(ws, 2) && At(Last(ws), s, node0, node1, proposals, agreed) && slot in proposals
      && (slot.id == 1 || slot.id == 2)
    requires Completes(if Sender(s, slot.id) == 1 then node1 else node0, slot.id, 2)
    ensures Run(more, 2) && Last(more).delivered == Last(ws).delivered
    ensures var sender := if Sender(s, slot.id) == 1 then node1 else node0;
      var top := Highest(sender, slot.id, proposals[slot]);
      At(Last(more), s, if Sender(s, slot.id) == 1 then node0 else OnProposal(node0, slot.id, proposals[slot]),
         if Sender(s, slot.id) == 1 then OnProposal(node1, slot.id, proposals[slot]) else node1, proposals - {slot},
         agreed[Slot(slot.id, 0) := top][Slot(slot.id, 1) := top])
  {
    more := Extend(ws, DeliverProposal(slot));
    var w := Last(ws);
    var top := Highest(w.nodes[w.casts[slot.id]], slot.id, proposals[slot]);
    TwoSlots(agreed, slot.id, top);
  }

  lemma TwoSlots(agreed: map<Slot, int>, id: Id, top: int)
    ensures agreed + Announcement(id, 2, top) == agreed[Slot(id, 0) := top][Slot(id, 1) := top]
  {
    assert Slot(id, 0) in SlotsOf(id, 2) && Slot(id, 1) in SlotsOf(id, 2);
    assert SlotsOf(id, 2) == {Slot(id, 0), Slot(id, 1)};
  }

  /** An agreed priority that lets just its own message go. */
  lemma Agree(ws: seq<World>, s: nat, slot: Slot, node0: Node, node1: Node,
          proposals: map<Slot, int>, agreed: map<Slot, int>, node: Node)
    returns (more: seq<World>)
    requires Run(ws, 2) && At(Last(ws), s, node0, node1, proposals, agreed) && slot in agreed && slot.node < 2
    requires node == if slot.node == 0 then node0 else node1
    requires slot.id in node.queue
    requires var queue := OnAgreed(node, slot.id, agreed[slot]).queue;
      Head(queue, slot.id) && Settled(node.queue - {slot.id})
    ensures Run(more, 2)
    ensures var node' := node.(queue := node.queue - {slot.id});
      At(Last(more), s, if slot.node == 0 then node' else node0, if slot.node == 1 then node' else node1,
         proposals, agreed - {slot})
    ensures var out := Last(ws).delivered; var d := Delivery(slot.id, node.messageCheck);
      Out(Last(more), if slot.node == 0 then out[0] + [d] else out[0], if slot.node == 1 then out[1] + [d] else out[1])
  {
    var out := [slot.id];
    var queue := OnAgreed(node, slot.id, agreed[slot]).queue;
    assert queue - {slot.id} == node.queue - {slot.id};
    assert out[1..] == [] && Drains(queue - {slot.id}, []) && Drains(queue, out);
    more := Extend(ws, DeliverAgreed(slot, out));
    assert PopAll(Pop(AfterAgreed(Last(ws), slot), slot.node, slot.id), slot.node, [])
      == Pop(AfterAgreed(Last(ws), slot), slot.node, slot.id);
  }

  // ---------- Different ranks, different orders ----------

  function Waits(priority: int, sender: int): Item { Item(Key(priority, sender), false) }

  /** Node 1 once it has received message 2, then message 1; and node 0 with message 1 only. */
  const NODE1 := Node(2, {1, 2}, map[1 := Waits(2, 1), 2 := Waits(1, 0)], map[], map[])
  const NODE0 := Node(1, {1}, map[1 := Waits(1, 1)], map[], map[])

  lemma Cast(s: nat) returns (ws: seq<World>)
    requires s < 2
    ensures Run(ws, 2) && At(Last(ws), s, FRESH, FRESH, map[], map[]) && Out(Last(ws), [], [])
  {
    ws := [Init(2)];
    InitInv(2);
    ws := Extend(ws, Step.Cast(1, s));
    ws := Extend(ws, Step.Cast(2, 0));
  }

  lemma Received() returns (ws: seq<World>)
    ensures Run(ws, 2) && Out(Last(ws), [], [])
    ensures At(Last(ws), 1, NODE0, NODE1, map[Slot(2, 1) := 1, Slot(1, 1) := 2, Slot(1, 0) := 1], map[])
  {
    ws := Cast(1);
    var first := OnInitial(FRESH, 2, 0);
    assert OnInitial(first, 1, 1) == NODE1;
    assert OnInitial(FRESH, 1, 1) == NODE0;
    ws := Receive(ws, 1, 2, 1, FRESH, FRESH, map[], map[]);
    ws := Receive(ws, 1, 1, 1, FRESH, first, map[Slot(2, 1) := 1], map[]);
    ws := Receive(ws, 1, 1, 0, FRESH, NODE1, map[Slot(2, 1) := 1, Slot(1, 1) := 2], map[]);
  }

  /** The round of message 1 ends with priority 2. */
  lemma Round1() returns (ws: seq<World>)
    ensures Run(ws, 2) && Out(Last(ws), [], [])
    ensures At(Last(ws), 1, NODE0, NODE1.(proposed := map[1 := 2], repliers := map[1 := 2]), map[Slot(2, 1) := 1],
               map[Slot(1, 0) := 2, Slot(1, 1) := 2])
  {
    ws := Received();
    var once := OnProposal(NODE1, 1, 2);
    assert once == NODE1.(proposed := map[1 := 2], repliers := map[1 := 1]);
    assert OnProposal(once, 1, 1) == NODE1.(proposed := map[1 := 2], repliers := map[1 := 2]);
    ws := Propose(ws, 1, Slot(1, 1), NODE0, NODE1, map[Slot(2, 1) := 1, Slot(1, 1) := 2, Slot(1, 0) := 1], map[]);
    ws := Announce(ws, 1, Slot(1, 0), NODE0, once,
      map[Slot(2, 1) := 1, Slot(1, 1) := 2, Slot(1, 0) := 1] - {Slot(1, 1)}, map[]);
    assert map[Slot(2, 1) := 1, Slot(1, 1) := 2, Slot(1, 0) := 1] - {Slot(1, 1)} - {Slot(1, 0)} == map[Slot(2, 1) := 1];
  }

  /** Node 1 once it has announced message 1; node 0 once it has delivered message 1 and received message 2. */
  const DONE1 := NODE1.(proposed := map[1 := 2], repliers := map[1 := 2])
  const LATE0 := Node(2, {1, 2}, map[2 := Waits(2, 0)], map[], map[])

  lemma Delivered1() returns (ws: seq<World>)
    ensures Run(ws, 2) && Out(Last(ws), [Delivery(1, {1})], [])
    ensures At(Last(ws), 1, LATE0, DONE1, map[Slot(2, 1) := 1, Slot(2, 0) := 2], map[Slot(1, 1) := 2])
  {
    ws := Round1();
    var agreed := map[Slot(1, 0) := 2, Slot(1, 1) := 2];
    assert agreed - {Slot(1, 0)} == map[Slot(1, 1) := 2];
    assert NODE0.queue - {1} == map[];
    ws := Agree(ws, 1, Slot(1, 0), NODE0, DONE1, map[Slot(2, 1) := 1], agreed, NODE0);
    assert Out(Last(ws), [Delivery(1, {1})], []);
    var empty := NODE0.(queue := map[]);
    assert OnInitial(empty, 2, 0) == LATE0;
    ws := Receive(ws, 1, 2, 0, empty, DONE1, map[Slot(2, 1) := 1], map[Slot(1, 1) := 2]);
  }

  /** The round of message 2 ends with priority 2 as well. */
  lemma Round2() returns (ws: seq<World>)
    ensures Run(ws, 2) && Out(Last(ws), [Delivery(1, {1})], [])
    ensures At(Last(ws), 1, LATE0.(proposed := map[2 := 2], repliers := map[2 := 2]), DONE1, map[],
               map[Slot(1, 1) := 2, Slot(2, 0) := 2, Slot(2, 1) := 2])
  {
    ws := Delivered1();
    var once := OnProposal(LATE0, 2, 1);
    assert once == LATE0.(proposed := map[2 := 1], repliers := map[2 := 1]);
    assert OnProposal(once, 2, 2) == LATE0.(proposed := map[2 := 2], repliers := map[2 := 2]);
    var proposals := map[Slot(2, 1) := 1, Slot(2, 0) := 2];
    assert proposals - {Slot(2, 1)} == map[Slot(2, 0) := 2] && map[Slot(2, 0) := 2] - {Slot(2, 0)} == map[];
    ws := Propose(ws, 1, Slot(2, 1), LATE0, DONE1, proposals, map[Slot(1, 1) := 2]);
    ws := Announce(ws, 1, Slot(2, 0), once, DONE1, map[Slot(2, 0) := 2], map[Slot(1, 1) := 2]);
  }

  const DONE0 := LATE0.(queue := map[], proposed := map[2 := 2], repliers := map[2 := 2])

  /** Node 0 delivers message 2 after message 1. */
  lemma Delivered2() returns (ws: seq<World>)
    ensures Run(ws, 2) && Out(Last(ws), [Delivery(1, {1}), Delivery(2, {1, 2})], [])
    ensures At(Last(ws), 1, DONE0, DONE1, map[], map[Slot(1, 1) := 2, Slot(2, 1) := 2])
  {
    ws := Round2();
    var agreed := map[Slot(1, 1) := 2, Slot(2, 0) := 2, Slot(2, 1) := 2];
    var node0 := LATE0.(proposed := map[2 := 2], repliers := map[2 := 2]);
    assert node0.queue - {2} == map[] && agreed - {Slot(2, 0)} == map[Slot(1, 1) := 2, Slot(2, 1) := 2];
    ws := Agree(ws, 1, Slot(2, 0), node0, DONE1, map[], agreed, node0);
  }

  /** Node 1 delivers message 2, then message 1. */
  lemma Delivered21() returns (ws: seq<World>)
    ensures Run(ws, 2) && Inv(Last(ws)) && Last(ws).casts == map[1 := 1, 2 := 0]
    ensures Out(Last(ws), [Delivery(1, {1}), Delivery(2, {1, 2})], [Delivery(2, {1, 2}), Delivery(1, {1, 2})])
  {
    ws := Delivered2();
    var rest := map[1 := Waits(2, 1)];
    assert DONE1.queue - {2} == rest && Head(rest, 1) && rest - {1} == map[];
    ws := Agree(ws, 1, Slot(2, 1), DONE0, DONE1, map[], map[Slot(1, 1) := 2, Slot(2, 1) := 2], DONE1);
    assert Out(Last(ws), [Delivery(1, {1}), Delivery(2, {1, 2})], [Delivery(2, {1, 2})]);
    var agreed := map[Slot(1, 1) := 2, Slot(2, 1) := 2] - {Slot(2, 1)};
    ws := Agree(ws, 1, Slot(1, 1), DONE0, DONE1.(queue := rest), map[], agreed, DONE1.(queue := rest));
  }

  /** Total order does not hold of every run: two nodes may deliver two messages of different ranks in opposite
      orders. */
  lemma TotalOrderCanFail() returns (ws: seq<World>)
    ensures Run(ws, 2)
    ensures var w := ws[|ws| - 1];
      && Delivers(w, 0, 0, 1) && Delivers(w, 0, 1, 2) && Delivers(w, 1, 0, 2) && Delivers(w, 1, 1, 1)
      && Final(w, 1) != Final(w, 2)
  {
    ws := Delivered21();
    assert Last(ws) == ws[|ws| - 1];
  }

  // ---------- Equal ranks ----------

  // Both messages are from node 0 and reach the two nodes in opposite orders. Both rounds end with priority 2.

  const BOTH0 := Node(2, {1, 2}, map[1 := Waits(1, 0), 2 := Waits(2, 0)], map[], map[])
  const BOTH1 := Node(2, {1, 2}, map[1 := Waits(2, 0), 2 := Waits(1, 0)], map[], map[])

  lemma BothReceived() returns (ws: seq<World>)
    ensures Run(ws, 2) && Out(Last(ws), [], [])
    ensures At(Last(ws), 0, BOTH0, BOTH1, map[Slot(1, 0) := 1, Slot(2, 0) := 2, Slot(2, 1) := 1, Slot(1, 1) := 2],
      map[])
  {
    ws := Cast(0);
    var first0, first1 := OnInitial(FRESH, 1, 0), OnInitial(FRESH, 2, 0);
    assert OnInitial(first0, 2, 0) == BOTH0 && OnInitial(first1, 1, 0) == BOTH1;
    ws := Receive(ws, 0, 1, 0, FRESH, FRESH, map[], map[]);
    ws := Receive(ws, 0, 2, 0, first0, FRESH, map[Slot(1, 0) := 1], map[]);
    ws := Receive(ws, 0, 2, 1, BOTH0, FRESH, map[Slot(1, 0) := 1, Slot(2, 0) := 2], map[]);
    ws := Receive(ws, 0, 1, 1, BOTH0, first1, map[Slot(1, 0) := 1, Slot(2, 0) := 2, Slot(2, 1) := 1], map[]);
  }

  lemma BothRound1() returns (ws: seq<World>)
    ensures Run(ws, 2) && Out(Last(ws), [], [])
    ensures At(Last(ws), 0, BOTH0.(proposed := map[1 := 2], repliers := map[1 := 2]), BOTH1,
               map[Slot(2, 0) := 2, Slot(2, 1) := 1], map[Slot(1, 0) := 2, Slot(1, 1) := 2])
  {
    ws := BothReceived();
    var once := OnProposal(BOTH0, 1, 1);
    assert once == BOTH0.(proposed := map[1 := 1], repliers := map[1 := 1]);
    assert OnProposal(once, 1, 2) == BOTH0.(proposed := map[1 := 2], repliers := map[1 := 2]);
    var proposals := map[Slot(1, 0) := 1, Slot(2, 0) := 2, Slot(2, 1) := 1, Slot(1, 1) := 2];
    ws := Propose(ws, 0, Slot(1, 0), BOTH0, BOTH1, proposals, map[]);
    ws := Announce(ws, 0, Slot(1, 1), once, BOTH1, proposals - {Slot(1, 0)}, map[]);
    assert proposals - {Slot(1, 0)} - {Slot(1, 1)} == map[Slot(2, 0) := 2, Slot(2, 1) := 1];
  }

  const ANNOUNCED0 := BOTH0.(proposed := map[1 := 2, 2 := 2], repliers := map[1 := 2, 2 := 2])
  const AGREED: map<Slot, int> := map[Slot(1, 0) := 2, Slot(1, 1) := 2, Slot(2, 0) := 2, Slot(2, 1) := 2]

  lemma BothRound2() returns (ws: seq<World>)
    ensures Run(ws, 2) && Out(Last(ws), [], []) && At(Last(ws), 0, ANNOUNCED0, BOTH1, map[], AGREED)
  {
    ws := BothRound1();
    var node0 := BOTH0.(proposed := map[1 := 2], repliers := map[1 := 2]);
    var once := OnProposal(node0, 2, 2);
    assert once == BOTH0.(proposed := map[1 := 2, 2 := 2], repliers := map[1 := 2, 2 := 1]);
    assert OnProposal(once, 2, 1) == ANNOUNCED0;
    var agreed := map[Slot(1, 0) := 2, Slot(1, 1) := 2];
    var proposals := map[Slot(2, 0) := 2, Slot(2, 1) := 1];
    assert proposals - {Slot(2, 0)} == map[Slot(2, 1) := 1] && map[Slot(2, 1) := 1] - {Slot(2, 1)} == map[];
    ws := Propose(ws, 0, Slot(2, 0), node0, BOTH1, proposals, agreed);
    ws := Announce(ws, 0, Slot(2, 1), once, BOTH1, map[Slot(2, 1) := 1], agreed);
  }

  const DONE_BOTH := ANNOUNCED0.(queue := map[])
  const REST: map<Slot, int> := map[Slot(1, 1) := 2, Slot(2, 1) := 2]

  lemma FirstAt0() returns (ws: seq<World>)
    ensures Run(ws, 2) && Out(Last(ws), [Delivery(1, {1, 2})], [])
    ensures At(Last(ws), 0, ANNOUNCED0.(queue := map[2 := Waits(2, 0)]), BOTH1, map[], REST[Slot(2, 0) := 2])
  {
    ws := BothRound2();
    var rest := map[2 := Waits(2, 0)];
    assert ANNOUNCED0.queue - {1} == rest && Head(rest, 2);
    assert AGREED - {Slot(1, 0)} == REST[Slot(2, 0) := 2];
    ws := Agree(ws, 0, Slot(1, 0), ANNOUNCED0, BOTH1, map[], AGREED, ANNOUNCED0);
  }

  /** Node 0 delivers message 1, then message 2. */
  lemma BothAt0() returns (ws: seq<World>)
    ensures Run(ws, 2) && Out(Last(ws), [Delivery(1, {1, 2}), Delivery(2, {1, 2})], [])
    ensures At(Last(ws), 0, DONE_BOTH, BOTH1, map[], REST)
  {
    ws := FirstAt0();
    var node := ANNOUNCED0.(queue := map[2 := Waits(2, 0)]);
    assert node.queue - {2} == map[] && REST[Slot(2, 0) := 2] - {Slot(2, 0)} == REST;
    ws := Agree(ws, 0, Slot(2, 0), node, BOTH1, map[], REST[Slot(2, 0) := 2], node);
  }

  lemma FirstAt1() returns (ws: seq<World>)
    ensures Run(ws, 2) && Out(Last(ws), [Delivery(1, {1, 2}), Delivery(2, {1, 2})], [Delivery(2, {1, 2})])
    ensures At(Last(ws), 0, DONE_BOTH, BOTH1.(queue := map[1 := Waits(2, 0)]), map[], map[Slot(1, 1) := 2])
  {
    ws := BothAt0();
    var rest := map[1 := Waits(2, 0)];
    assert BOTH1.queue - {2} == rest && Head(rest, 1) && REST - {Slot(2, 1)} == map[Slot(1, 1) := 2];
    ws := Agree(ws, 0, Slot(2, 1), DONE_BOTH, BOTH1, map[], REST, BOTH1);
  }

  /** Two messages of one sender, both received by both nodes before either delivers one, end with the same rank
      and are delivered in opposite orders. */
  lemma TiedOrderCanFail() returns (ws: seq<World>)
    ensures Run(ws, 2)
    ensures var w := ws[|ws| - 1];
      && Delivers(w, 0, 0, 1) && Delivers(w, 0, 1, 2) && Delivers(w, 1, 0, 2) && Delivers(w, 1, 1, 1)
      && HadReceived(w, 0, 0, 2) && HadReceived(w, 1, 0, 1) && Final(w, 1) == Final(w, 2)
  {
    ws := FirstAt1();
    var node := BOTH1.(queue := map[1 := Waits(2, 0)]);
    assert node.queue - {1} == map[] && map[Slot(1, 1) := 2] - {Slot(1, 1)} == map[];
    ws := Agree(ws, 0, Slot(1, 1), DONE_BOTH, node, map[], map[Slot(1, 1) := 2], node);
    SameRank(ws);
  }

  lemma SameRank(ws: seq<World>)
    requires Run(ws, 2) && At(Last(ws), 0, DONE_BOTH, BOTH1.(queue := map[]), map[], map[])
    ensures Final(Last(ws), 1) == Final(Last(ws), 2)
  {
    AllCounted(Last(ws), 1);
    AllCounted(Last(ws), 2);
  }

  lemma AllCounted(w: World, id: Id)
    requires At(w, 0, DONE_BOTH, BOTH1.(queue := map[]), map[], map[]) && (id == 1 || id == 2)
    ensures id in w.decided && w.decided[id] == w.nodes[0].proposed[id]
  {
    assert RoundOk(w, id);
    forall x | 0 <= x < 2 ensures Slot(id, x) in w.made { assert SlotOk(w, Slot(id, x)); }
    assert Counted(w, id) == Everyone(2);
  }

  /** The heaps of the two nodes do choose like that: each has taken in the two messages in its own order, one of
      them is then agreed at the rank of the other, and it is at the head of the heap that took it in first. */
  method TiedHeads() returns (first: Id, second: Id)
    ensures first == 1 && second == 2
  {
    first := HeadOf(1, 2);
    second := HeadOf(2, 1);
  }

  method HeadOf(a: Id, b: Id) returns (head: Id)
    ensures head == a
  {
    var pq, early := TwoQueued(a, b);
    assert early in pq.items;
    ghost var keys := Keys(pq.items);
    early.isDeliverable := true;
    assert Keys(pq.items) == keys;
    pq.Update(early, 2);
    head := pq.items[0].id;
  }

  method TwoQueued(a: Id, b: Id) returns (pq: MessagePQ, early: Message)
    ensures fresh(pq) && pq.Valid() && |pq.items| == 2 && pq.items[0] == early && fresh(early) && fresh(pq.items[1])
    ensures early.id == a && early.Rank() == Key(1, 0) && pq.items[1].Rank() == Key(2, 0) && early != pq.items[1]
  {
    pq := new MessagePQ();
    early := new Message(a, 0, 1);
    PushFirst(pq, early);
    var late := new Message(b, 0, 2);
    PushSecond(pq, early, late);
  }

  method PushFirst(pq: MessagePQ, early: Message)
    requires pq.Valid() && pq.items == []
    modifies pq, early
    ensures pq.Valid() && pq.items == [early] && early.Rank() == old(early.Rank())
  {
    pq.Push(early);
    assert pq.items == [] + [early];
  }

  method PushSecond(pq: MessagePQ, early: Message, late: Message)
    requires pq.Valid() && pq.items == [early] && late != early && !Less(late.Rank(), early.Rank())
    modifies pq, early, late
    ensures pq.Valid() && pq.items == [early, late] && early.Rank() == old(early.Rank())
      && late.Rank() == old(late.Rank())
  {
    pq.Push(late);
    assert pq.items == [early] + [late];
  }
}
