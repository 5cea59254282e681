/** A group of nodes that multicast to each other, without failures. A cast may reach a node any number of
    times, through any other node; proposals and agreed priorities arrive once, in any order. */
module IsisWorld {
  import opened IsisHeap
  import opened IsisHandlers

  /** A proposal of a node for a message, or the agreed priority on its way to that node. */
  datatype Slot = Slot(id: Id, node: nat)

  /** A delivery to the application, with the messages the node had received by then. */
  datatype Delivery = Delivery(id: Id, received: set<Id>)

  datatype World = World(
    nodes: seq<Node>,
    /** Every message ever cast, with its sender. */
    casts: map<Id, nat>,
    /** In flight. */
    proposals: map<Slot, int>,
    agreed: map<Slot, int>,
    // History: proposals made, agreed priorities, the announcements in order, and each node's deliveries.
    made: map<Slot, int>,
    decided: map<Id, int>,
    announced: seq<Id>,
    delivered: seq<seq<Delivery>>)

  datatype Step =
    | Cast(id: Id, sender: nat)
    | DeliverInitial(id: Id, node: nat)
    | DeliverProposal(slot: Slot)
    | DeliverAgreed(slot: Slot, out: seq<Id>)

  function Init(n: nat): World {
    World(seq(n, _ => FRESH), map[], map[], map[], map[], map[], [], seq(n, _ => []))
  }

  /** As many histories as nodes, and messages addressed to nodes. */
  ghost predicate Shape(w: World) {
    var n := |w.nodes|;
    && n >= 2 && |w.delivered| == n
    && (forall id :: id in w.casts ==> w.casts[id] < n)
    && (forall slot :: slot in w.proposals ==> slot.id in w.casts)
    && (forall slot :: slot in w.agreed ==> slot.node < n)
  }

  ghost predicate Enabled(w: World, step: Step)
    requires Shape(w)
  {
    match step
    case Cast(id, sender) => id !in w.casts && sender < |w.nodes|
    case DeliverInitial(id, x) => id in w.casts && x < |w.nodes|
    case DeliverProposal(slot) => slot in w.proposals
    case DeliverAgreed(slot, out) =>
      && slot in w.agreed && slot.id in w.nodes[slot.node].queue
      && Drains(OnAgreed(w.nodes[slot.node], slot.id, w.agreed[slot]).queue, out)
  }

  ghost function AfterInitial(w: World, id: Id, x: nat): World
    requires Shape(w) && id in w.casts && x < |w.nodes|
  {
    if id in w.nodes[x].messageCheck then w
    else
      var node := OnInitial(w.nodes[x], id, w.casts[id]);
      w.(nodes := w.nodes[x := node], proposals := w.proposals[Slot(id, x) := node.p],
        made := w.made[Slot(id, x) := node.p])
  }

  ghost function SlotsOf(id: Id, n: nat): set<Slot> {
    set x | 0 <= x < n :: Slot(id, x)
  }

  ghost function Announcement(id: Id, n: nat, priority: int): map<Slot, int> {
    map slot | slot in SlotsOf(id, n) :: priority
  }

  ghost function AfterProposal(w: World, slot: Slot): World
    requires Shape(w) && slot in w.proposals
  {
    var id, s, n := slot.id, w.casts[slot.id], |w.nodes|;
    var highest := Highest(w.nodes[s], id, w.proposals[slot]);
    var w' := w.(nodes := w.nodes[s := OnProposal(w.nodes[s], id, w.proposals[slot])],
      proposals := w.proposals - {slot});
    if Completes(w.nodes[s], id, n) then
      w'.(agreed := w.agreed + Announcement(id, n, highest), decided := w.decided[id := highest],
        announced := w.announced + [id])
    else w'
  }

  ghost function AfterAgreed(w: World, slot: Slot): World
    requires Shape(w) && slot in w.agreed && slot.id in w.nodes[slot.node].queue
  {
    w.(nodes := w.nodes[slot.node := OnAgreed(w.nodes[slot.node], slot.id, w.agreed[slot])],
      agreed := w.agreed - {slot})
  }

  ghost function Pop(w: World, x: nat, id: Id): World
    requires x < |w.nodes| && x < |w.delivered|
  {
    var node := w.nodes[x];
    w.(nodes := w.nodes[x := node.(queue := node.queue - {id})],
       delivered := w.delivered[x := w.delivered[x] + [Delivery(id, node.messageCheck)]])
  }

  ghost function PopAll(w: World, x: nat, out: seq<Id>): World
    requires x < |w.nodes| && x < |w.delivered|
    decreases |out|
  {
    if |out| == 0 then w else PopAll(Pop(w, x, out[0]), x, out[1..])
  }

  ghost function After(w: World, step: Step): World
    requires Shape(w) && Enabled(w, step)
  {
    match step
    case Cast(id, sender) => w.(casts := w.casts[id := sender])
    case DeliverInitial(id, x) => AfterInitial(w, id, x)
    case DeliverProposal(slot) => AfterProposal(w, slot)
    case DeliverAgreed(slot, out) => PopAll(AfterAgreed(w, slot), slot.node, out)
  }

  // ---------- The invariant ----------

  /** The nodes whose proposals the sender has counted. */
  ghost function Counted(w: World, id: Id): set<nat> {
    set x: nat | 0 <= x < |w.nodes| && Slot(id, x) in w.made && Slot(id, x) !in w.proposals
  }

  /** `top` is the largest of the proposals of the nodes `xs`. */
  ghost predicate IsMax(w: World, id: Id, xs: set<nat>, top: int) {
    && (forall x {:trigger Slot(id, x)} :: x in xs ==> Slot(id, x) in w.made && w.made[Slot(id, x)] <= top)
    && (exists x {:trigger Slot(id, x)} :: x in xs && w.made[Slot(id, x)] == top)
  }

  /** The sender's side of a round. */
  ghost predicate RoundOk(w: World, id: Id)
    requires Shape(w) && id in w.casts
  {
    var s, xs := w.nodes[w.casts[id]], Counted(w, id);
    && (id in s.repliers <==> xs != {}) && (id in s.proposed <==> xs != {})
    && (xs != {} ==> s.repliers[id] == |xs| && IsMax(w, id, xs, s.proposed[id]))
    && (id in w.decided <==> |xs| == |w.nodes|)
    && (id in w.decided ==> w.decided[id] == s.proposed[id])
  }

  ghost predicate SlotOk(w: World, slot: Slot)
    requires Shape(w) && slot.node < |w.nodes|
  {
    var node := w.nodes[slot.node];
    && (slot in w.made <==> slot.id in node.messageCheck)
    && (slot in w.made ==> 1 <= w.made[slot] <= node.p && slot.id in w.casts)
    && (slot in w.proposals ==> slot in w.made && w.proposals[slot] == w.made[slot])
    && (slot in w.agreed ==> slot.id in w.decided && w.agreed[slot] == w.decided[slot.id] && slot.id in node.queue)
    && (slot.id in node.queue ==> ItemOk(w, slot))
  }

  ghost predicate ItemOk(w: World, slot: Slot)
    requires Shape(w) && slot.node < |w.nodes| && slot.id in w.nodes[slot.node].queue
  {
    var item := w.nodes[slot.node].queue[slot.id];
    && slot in w.made && slot.id in w.casts && item.rank.sender == w.casts[slot.id]
    && (if item.deliverable then slot.id in w.decided && item.rank.priority == w.decided[slot.id] && slot !in w.agreed
        else item.rank.priority == w.made[slot] && (slot.id in w.decided ==> slot in w.agreed))
  }

  ghost predicate DeliveredBefore(w: World, x: nat, j: nat, id: Id)
    requires x < |w.delivered| && j <= |w.delivered[x]|
  {
    exists i :: 0 <= i < j && w.delivered[x][i].id == id
  }

  /** What is queued is what has been received and not delivered, and nothing is delivered twice. */
  ghost predicate NodeOk(w: World, x: nat)
    requires Shape(w) && x < |w.nodes|
  {
    var node, out := w.nodes[x], w.delivered[x];
    && (forall id :: id in node.queue <==> id in node.messageCheck && !DeliveredBefore(w, x, |out|, id))
    && (forall i :: 0 <= i < |out| ==> out[i].id in w.decided && out[i].id in node.messageCheck)
    && (forall i, j :: 0 <= i < j < |out| ==> out[i].id != out[j].id)
    && node.p >= 0 && forall id :: id in node.repliers || id in node.proposed ==> id in w.casts
  }

  /** The rank under which a message is finally delivered. */
  ghost function Final(w: World, id: Id): Key {
    Key(if id in w.decided then w.decided[id] else 0, if id in w.casts then w.casts[id] else 0)
  }

  /** The rank of a received message at a node: the queue's, or the one it was delivered under. */
  ghost function RankAt(w: World, x: nat, id: Id): Key
    requires x < |w.nodes|
  {
    if id in w.nodes[x].queue then w.nodes[x].queue[id].rank else Final(w, id)
  }

  /** Nothing that was waiting when delivery `j` was made has, or will ever have, a smaller rank. */
  ghost predicate OrderOk(w: World, x: nat, j: nat)
    requires Shape(w) && x < |w.nodes| && j < |w.delivered[x]|
  {
    var d := w.delivered[x][j];
    && d.received <= w.nodes[x].messageCheck
    && (forall i :: 0 <= i <= j ==> w.delivered[x][i].id in d.received)
    && (forall m {:trigger RankAt(w, x, m)} :: m in d.received && !DeliveredBefore(w, x, j + 1, m) ==>
        !Less(RankAt(w, x, m), Final(w, d.id)))
  }

  ghost predicate Inv(w: World) {
    && Shape(w)
    && (forall id {:trigger RoundOk(w, id)} :: id in w.casts ==> RoundOk(w, id))
    && (forall id, x {:trigger SlotOk(w, Slot(id, x))} :: 0 <= x < |w.nodes| ==> SlotOk(w, Slot(id, x)))
    && (forall x {:trigger NodeOk(w, x)} :: 0 <= x < |w.nodes| ==> NodeOk(w, x))
    && (forall x, j {:trigger OrderOk(w, x, j)} :: 0 <= x < |w.nodes| && 0 <= j < |w.delivered[x]| ==> OrderOk(w, x, j))
    && (forall id :: id in w.decided ==> id in w.casts)
    && (forall slot :: slot in w.made || slot in w.proposals ==> slot.node < |w.nodes|)
    && (forall id :: id in w.announced <==> id in w.decided)
    && (forall i, j :: 0 <= i < j < |w.announced| ==> w.announced[i] != w.announced[j])
  }
}
