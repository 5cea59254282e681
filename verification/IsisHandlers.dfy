/** What one node of the ordered multicast computes on each kind of message, when no node has failed. */
module IsisHandlers {
  import opened IsisHeap

  type Id = nat

  /** A message in the hold-back queue. */
  datatype Item = Item(rank: Key, deliverable: bool)

  datatype Node = Node(
    p: int, messageCheck: set<Id>, queue: map<Id, Item>, proposed: map<Id, int>, repliers: map<Id, nat>)

  /** The largest agreed priority a node has seen would be kept in `A`; the source never assigns it. */
  const A := 0

  const FRESH := Node(0, {}, map[], map[], map[])

  function Max(a: int, b: int): int { if a > b then a else b }

  /** Status "i", for a message not seen before: the priority to propose is the node's new `p`. */
  function OnInitial(node: Node, id: Id, sender: nat): Node {
    var p := Max(A, node.p) + 1;
    node.(p := p, messageCheck := node.messageCheck + {id}, queue := node.queue[id := Item(Key(p, sender), false)])
  }

  /** The largest proposal so far, `priority` included. */
  function Highest(node: Node, id: Id, priority: int): int {
    if id in node.proposed && node.proposed[id] >= priority then node.proposed[id] else priority
  }

  function Replies(node: Node, id: Id): nat {
    if id in node.repliers then node.repliers[id] else 0
  }

  /** Status "p", at the sender. */
  function OnProposal(node: Node, id: Id, priority: int): Node {
    node.(proposed := node.proposed[id := Highest(node, id, priority)],
      repliers := node.repliers[id := Replies(node, id) + 1])
  }

  /** The proposal completes the round: the highest one is announced. The first reply never does. */
  predicate Completes(node: Node, id: Id, n: nat) {
    id in node.repliers && node.repliers[id] + 1 == n
  }

  /** Status "a": the message gets its agreed priority and may be delivered. */
  function OnAgreed(node: Node, id: Id, priority: int): Node
    requires id in node.queue
  {
    node.(queue := node.queue[id := Item(Key(priority, node.queue[id].rank.sender), true)])
  }

  /** Nothing in the queue comes before `id`. */
  predicate Head(queue: map<Id, Item>, id: Id) {
    id in queue && forall m :: m in queue ==> !Less(queue[m].rank, queue[id].rank)
  }

  /** Nothing more to deliver: the head, if there is one, is not agreed yet. */
  ghost predicate Settled(queue: map<Id, Item>) {
    queue == map[] || exists id :: Head(queue, id) && !queue[id].deliverable
  }

  /** The delivery loop takes `out` from the queue, in this order. Among messages of equal rank the heap's
      layout decides which is the head; any of them is allowed here. */
  ghost predicate Drains(queue: map<Id, Item>, out: seq<Id>) {
    if |out| == 0 then Settled(queue)
    else Head(queue, out[0]) && queue[out[0]].deliverable && Drains(queue - {out[0]}, out[1..])
  }

  /** What is left in a queue once `out` has been delivered. */
  ghost function Left(queue: map<Id, Item>, out: seq<Id>): map<Id, Item> {
    if |out| == 0 then queue else Left(queue - {out[0]}, out[1..])
  }

  /** One run of the loop delivers in the order of the ranks. */
  lemma {:induction false} DrainsInOrder(queue: map<Id, Item>, out: seq<Id>, i: nat, j: nat)
    requires Drains(queue, out) && i <= j < |out|
    ensures out[i] in queue && out[j] in queue && queue[out[i]].deliverable
      && !Less(queue[out[j]].rank, queue[out[i]].rank)
    decreases |out|
  {
    if j > 0 {
      DrainsInOrder(queue - {out[0]}, out[1..], if i > 0 then i - 1 else 0, j - 1);
    }
  }
}
