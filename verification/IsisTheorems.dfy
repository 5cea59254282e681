/** What holds of every multicast run. */
module IsisTheorems {
  import opened Runs
  import opened IsisHeap
  import opened IsisHandlers
  import opened IsisWorld
  import opened IsisSafety

  ghost predicate Next(w: World, v: World) {
    Shape(w) && exists step :: Enabled(w, step) && v == After(w, step)
  }

  /** The states of a run of `n` nodes, from the initial one on. */
  ghost predicate Run(ws: seq<World>, n: nat) {
    n >= 2 && Steps(ws, Init(n), Next)
  }

  lemma {:induction false} PopAllIsLeft(w: World, x: nat, out: seq<Id>)
    requires x < |w.nodes| == |w.delivered|
    ensures var v := PopAll(w, x, out);
      && |v.nodes| == |w.nodes| == |v.delivered|
      && v.nodes == w.nodes[x := w.nodes[x].(queue := Left(w.nodes[x].queue, out))]
      && |v.delivered[x]| == |w.delivered[x]| + |out|
      && (forall k :: 0 <= k < |w.delivered[x]| ==> v.delivered[x][k] == w.delivered[x][k])
      && (forall k :: 0 <= k < |out| ==>
          v.delivered[x][|w.delivered[x]| + k] == Delivery(out[k], w.nodes[x].messageCheck))
    decreases |out|
  {
    if |out| > 0 {
      var w' := Pop(w, x, out[0]);
      PopAllIsLeft(w', x, out[1..]);
      var v := PopAll(w, x, out);
      forall k | 0 <= k < |out|
        ensures v.delivered[x][|w.delivered[x]| + k] == Delivery(out[k], w.nodes[x].messageCheck)
      {
        if k > 0 {
          assert v.delivered[x][|w'.delivered[x]| + (k - 1)] == Delivery(out[1..][k - 1], w.nodes[x].messageCheck);
        } else { assert v.delivered[x][|w.delivered[x]|] == w'.delivered[x][|w.delivered[x]|]; }
      }
    }
  }

  /** The step of an agreed priority is what the handler computes, and the messages it takes out are delivered in
      the order in which it takes them. */
  lemma AgreedStep(w: World, slot: Slot, out: seq<Id>)
    requires Shape(w) && Enabled(w, DeliverAgreed(slot, out))
    ensures var v := After(w, DeliverAgreed(slot, out)); var x := slot.node;
      var node := OnAgreed(w.nodes[x], slot.id, w.agreed[slot]);
      && v.nodes == w.nodes[x := node.(queue := Left(node.queue, out))] && |v.delivered| == |w.delivered|
      && |v.delivered[x]| == |w.delivered[x]| + |out|
      && forall k :: 0 <= k < |out| ==> v.delivered[x][|w.delivered[x]| + k].id == out[k]
  {
    PopAllIsLeft(AfterAgreed(w, slot), slot.node, out);
  }

  lemma NextKeepsInv(w: World, v: World)
    requires Inv(w) && Next(w, v)
    ensures Inv(v) && |v.nodes| == |w.nodes|
  {
    var step :| Enabled(w, step) && v == After(w, step);
    StepKeepsInv(w, step);
    SameNodes(w, step);
  }

  lemma SameNodes(w: World, step: Step)
    requires Shape(w) && Enabled(w, step)
    ensures |After(w, step).nodes| == |w.nodes|
  {
    if step.DeliverAgreed? { PopAllIsLeft(AfterAgreed(w, step.slot), step.slot.node, step.out); }
  }

  lemma {:induction false} RunInv(ws: seq<World>, n: nat, i: nat)
    requires Run(ws, n) && i < |ws|
    ensures Inv(ws[i]) && |ws[i].nodes| == n
  {
    if i == 0 {
      InitInv(n);
    } else {
      RunInv(ws, n, i - 1);
      StepAt(ws, Init(n), Next, i - 1);
      NextKeepsInv(ws[i - 1], ws[i]);
    }
  }

  /** Where a run stands before a step, and that it is one. */
  lemma NextOf(ws: seq<World>, n: nat, i: nat)
    requires Run(ws, n) && i + 1 < |ws|
    ensures Inv(ws[i]) && Next(ws[i], ws[i + 1])
  {
    RunInv(ws, n, i);
    StepAt(ws, Init(n), Next, i);
  }

  // ---------- The agreement round ----------

  /** A message is announced once, exactly when its sender has counted a proposal of every node; the priority
      it is announced with is the largest of them all. */
  lemma AgreementRound(ws: seq<World>, n: nat, i: nat, id: Id)
    requires Run(ws, n) && i < |ws|
    ensures var w := ws[i];
      && (id in w.announced <==> id in w.casts && Counted(w, id) == Everyone(n))
      && (id in w.announced ==> id in w.decided && IsMax(w, id, Everyone(n), w.decided[id]))
      && (forall a, b :: 0 <= a < |w.announced| && 0 <= b < |w.announced| && w.announced[a] == w.announced[b] ==>
          a == b)
  {
    RunInv(ws, n, i);
    var w := ws[i];
    if id in w.casts {
      assert RoundOk(w, id);
      if id in w.decided {
        forall x | 0 <= x < n ensures x in Counted(w, id) { AllCounted(w, id, x); }
        assert Counted(w, id) == Everyone(n);
      }
    }
  }

  /** An agreed priority always finds its message in the queue, still undecided there, and never lowers its rank. */
  lemma AgreedIsFound(ws: seq<World>, n: nat, i: nat, slot: Slot)
    requires Run(ws, n) && i < |ws| && slot in ws[i].agreed
    ensures var w := ws[i]; slot.node < |w.nodes| && slot.id in w.nodes[slot.node].queue
    ensures var item := ws[i].nodes[slot.node].queue[slot.id];
      !item.deliverable && ws[i].agreed[slot] >= item.rank.priority
  {
    RunInv(ws, n, i);
    AgreedRises(ws[i], slot);
  }

  /** A queue has a head. */
  lemma {:induction false} SomeHead(queue: map<Id, Item>) returns (id: Id)
    requires queue != map[]
    ensures Head(queue, id)
    decreases |queue|
  {
    id :| id in queue;
    var rest := queue - {id};
    forall q | q in queue ensures q == id || (q in rest && rest[q] == queue[q]) {}
    if rest != map[] {
      assert queue.Keys == rest.Keys + {id};
      var m := SomeHead(rest);
      if Less(rest[m].rank, queue[id].rank) { id := m; }
    }
  }

  lemma {:induction false} SomeDrain(queue: map<Id, Item>) returns (out: seq<Id>)
    ensures Drains(queue, out)
    decreases |queue|
  {
    if queue == map[] { return []; }
    var id := SomeHead(queue);
    if !queue[id].deliverable { return []; }
    assert queue.Keys == (queue - {id}).Keys + {id};
    var rest := SomeDrain(queue - {id});
    out := [id] + rest;
    assert out[1..] == rest;
  }

  /** So the handler of an agreed priority can always run to its end. */
  lemma AgreedCanRun(ws: seq<World>, n: nat, i: nat, slot: Slot) returns (out: seq<Id>)
    requires Run(ws, n) && i < |ws| && slot in ws[i].agreed
    ensures Shape(ws[i]) && Enabled(ws[i], DeliverAgreed(slot, out))
  {
    RunInv(ws, n, i);
    AgreedRises(ws[i], slot);
    out := SomeDrain(OnAgreed(ws[i].nodes[slot.node], slot.id, ws[i].agreed[slot]).queue);
  }

  /** No node delivers a message twice, or one without an agreed priority. */
  lemma DeliveredOnce(ws: seq<World>, n: nat, i: nat, x: nat, a: nat, b: nat)
    requires Run(ws, n) && i < |ws| && x < n && |ws[i].delivered| == n && a < |ws[i].delivered[x]|
      && b < |ws[i].delivered[x]|
    ensures ws[i].delivered[x][a].id == ws[i].delivered[x][b].id ==> a == b
    ensures ws[i].delivered[x][a].id in ws[i].announced
  {
    RunInv(ws, n, i);
    assert NodeOk(ws[i], x);
  }

  /** At every node, an announced message is in exactly one place: on its way there as an agreed priority, in
      the queue and deliverable, or delivered. */
  lemma AnnouncedIsSomewhere(ws: seq<World>, n: nat, i: nat, id: Id, x: nat)
    requires Run(ws, n) && i < |ws| && x < n && |ws[i].nodes| == |ws[i].delivered| == n && id in ws[i].announced
    ensures var w := ws[i]; var queue := w.nodes[x].queue;
      && (DeliveredBefore(w, x, |w.delivered[x]|, id) <==> id !in queue)
      && (id in queue ==> (Slot(id, x) in w.agreed <==> !queue[id].deliverable))
      && (id !in queue ==> Slot(id, x) !in w.agreed)
  {
    RunInv(ws, n, i);
    var w := ws[i];
    assert NodeOk(w, x) && SlotOk(w, Slot(id, x)) && RoundOk(w, id);
    AllCounted(w, id, x);
  }

  // ---------- No delivery is late ----------

  lemma SettledWithNew(queue: map<Id, Item>, id: Id, item: Item)
    requires Settled(queue) && id !in queue && !item.deliverable
    ensures Settled(queue[id := item])
  {
    var queue' := queue[id := item];
    if queue == map[] {
      assert Head(queue', id);
    } else {
      var h :| Head(queue, h) && !queue[h].deliverable;
      assert Head(queue', if Less(item.rank, queue[h].rank) then id else h);
    }
  }

  lemma {:induction false} DrainSettles(w: World, x: nat, out: seq<Id>)
    requires x < |w.nodes| == |w.delivered| && Drains(w.nodes[x].queue, out)
    ensures var v := PopAll(w, x, out);
      && |v.nodes| == |w.nodes| && Settled(v.nodes[x].queue)
      && forall y :: 0 <= y < |w.nodes| && y != x ==> v.nodes[y] == w.nodes[y]
    decreases |out|
  {
    if |out| > 0 { DrainSettles(Pop(w, x, out[0]), x, out[1..]); }
  }

  ghost predicate AllSettled(w: World) {
    forall x {:trigger w.nodes[x]} :: 0 <= x < |w.nodes| ==> Settled(w.nodes[x].queue)
  }

  lemma InitialSettles(w: World, id: Id, x: nat)
    requires Inv(w) && AllSettled(w) && Enabled(w, DeliverInitial(id, x))
    ensures AllSettled(AfterInitial(w, id, x))
  {
    if id !in w.nodes[x].messageCheck {
      assert NodeOk(w, x);
      SettledWithNew(w.nodes[x].queue, id, Item(Key(Max(A, w.nodes[x].p) + 1, w.casts[id]), false));
    }
  }

  lemma StepSettles(w: World, step: Step)
    requires Inv(w) && AllSettled(w) && Enabled(w, step)
    ensures AllSettled(After(w, step))
  {
    match step
    case Cast(_, _) =>
    case DeliverInitial(id, x) => InitialSettles(w, id, x);
    case DeliverProposal(slot) =>
    case DeliverAgreed(slot, out) => DrainSettles(AfterAgreed(w, slot), slot.node, out);
  }

  lemma NextSettles(w: World, v: World)
    requires Inv(w) && AllSettled(w) && Next(w, v)
    ensures AllSettled(v)
  {
    var step :| Enabled(w, step) && v == After(w, step);
    StepSettles(w, step);
  }

  lemma {:induction false} RunSettles(ws: seq<World>, n: nat, i: nat)
    requires Run(ws, n) && i < |ws|
    ensures AllSettled(ws[i])
  {
    if i == 0 {
    } else {
      RunSettles(ws, n, i - 1);
      NextOf(ws, n, i - 1);
      NextSettles(ws[i - 1], ws[i]);
    }
  }

  /** In every reachable state a deliverable message waits only behind one that is not agreed yet. */
  lemma PromptDelivery(ws: seq<World>, n: nat, i: nat, x: nat, id: Id) returns (h: Id)
    requires Run(ws, n) && i < |ws| && x < |ws[i].nodes|
    requires id in ws[i].nodes[x].queue && ws[i].nodes[x].queue[id].deliverable
    ensures var queue := ws[i].nodes[x].queue;
      h in queue && !queue[h].deliverable && !Less(queue[id].rank, queue[h].rank)
  {
    RunSettles(ws, n, i);
    var queue := ws[i].nodes[x].queue;
    assert Settled(queue);
    h :| Head(queue, h) && !queue[h].deliverable;
  }

  // ---------- What never changes again ----------

  /** At node `x`, a message received in `w` has not got a smaller rank in `v`. */
  ghost predicate RankKept(w: World, v: World, x: nat, id: Id)
    requires x < |w.nodes| && x < |v.nodes|
  {
    id in w.nodes[x].messageCheck ==> id in v.nodes[x].messageCheck && !Less(RankAt(v, x, id), RankAt(w, x, id))
  }

  /** Senders, agreed priorities and deliveries are final, and ranks only rise. */
  ghost predicate Later(w: World, v: World) {
    && |v.nodes| == |w.nodes| == |w.delivered| == |v.delivered|
    && (forall id {:trigger id in v.casts} :: id in w.casts ==> id in v.casts && v.casts[id] == w.casts[id])
    && (forall id {:trigger id in v.decided} :: id in w.decided ==> id in v.decided && v.decided[id] == w.decided[id])
    && (forall x {:trigger v.delivered[x]} :: 0 <= x < |w.nodes| ==> w.delivered[x] <= v.delivered[x])
    && (forall x, id {:trigger RankKept(w, v, x, id)} :: 0 <= x < |w.nodes| ==> RankKept(w, v, x, id))
  }

  lemma LaterTransitive(u: World, w: World, v: World)
    requires Later(u, w) && Later(w, v)
    ensures Later(u, v)
  {
    forall x, id | 0 <= x < |u.nodes| ensures RankKept(u, v, x, id) {
      assert RankKept(u, w, x, id) && RankKept(w, v, x, id);
    }
    forall x | 0 <= x < |u.nodes| ensures u.delivered[x] <= v.delivered[x] {
      assert u.delivered[x] <= w.delivered[x] <= v.delivered[x];
    }
  }

  lemma CastLater(w: World, id: Id, sender: nat)
    requires Inv(w) && Enabled(w, Cast(id, sender))
    ensures Later(w, After(w, Cast(id, sender)))
  {
    var v := After(w, Cast(id, sender));
    forall x, m | 0 <= x < |w.nodes| ensures RankKept(w, v, x, m) { assert SlotOk(w, Slot(m, x)); }
  }

  lemma InitialLater(w: World, id: Id, x: nat)
    requires Inv(w) && Enabled(w, DeliverInitial(id, x))
    ensures Later(w, AfterInitial(w, id, x))
  {
    var v := AfterInitial(w, id, x);
    forall y, m | 0 <= y < |w.nodes| ensures RankKept(w, v, y, m) {}
  }

  lemma ProposalLater(w: World, slot: Slot)
    requires Inv(w) && slot in w.proposals
    ensures Later(w, AfterProposal(w, slot))
  {
    var v := AfterProposal(w, slot);
    ProposalRound(w, slot);
    forall y, m | 0 <= y < |w.nodes| ensures RankKept(w, v, y, m) {
      if m in w.nodes[y].messageCheck && m == slot.id { Waiting(w, m, y); }
    }
  }

  lemma AgreedLater(w: World, slot: Slot)
    requires Inv(w) && slot in w.agreed
    ensures slot.id in w.nodes[slot.node].queue && Later(w, AfterAgreed(w, slot))
  {
    AgreedRises(w, slot);
    var v := AfterAgreed(w, slot);
    forall y, m | 0 <= y < |w.nodes| ensures RankKept(w, v, y, m) {}
  }

  lemma PopLater(w: World, x: nat, id: Id)
    requires Inv(w) && CanPop(w, x, id)
    ensures Later(w, Pop(w, x, id))
  {
    var v := Pop(w, x, id);
    assert SlotOk(w, Slot(id, x));
    forall y, m | 0 <= y < |w.nodes| ensures RankKept(w, v, y, m) {}
  }

  lemma {:induction false} PopAllLater(w: World, x: nat, out: seq<Id>)
    requires Inv(w) && x < |w.nodes| && Drains(w.nodes[x].queue, out)
    ensures Later(w, PopAll(w, x, out))
    decreases |out|
  {
    if |out| > 0 {
      PopLater(w, x, out[0]);
      PopKeepsInv(w, x, out[0]);
      PopAllLater(Pop(w, x, out[0]), x, out[1..]);
      LaterTransitive(w, Pop(w, x, out[0]), PopAll(w, x, out));
    } else {
      LaterReflexive(w);
    }
  }

  lemma StepLater(w: World, step: Step)
    requires Inv(w) && Enabled(w, step)
    ensures Later(w, After(w, step))
  {
    match step
    case Cast(id, sender) => CastLater(w, id, sender);
    case DeliverInitial(id, x) => InitialLater(w, id, x);
    case DeliverProposal(slot) => ProposalLater(w, slot);
    case DeliverAgreed(slot, out) =>
      AgreedLater(w, slot);
      AgreedKeepsInv(w, slot);
      PopAllLater(AfterAgreed(w, slot), slot.node, out);
      LaterTransitive(w, AfterAgreed(w, slot), After(w, step));
  }

  lemma LaterReflexive(w: World)
    requires Inv(w)
    ensures Later(w, w)
  {
    forall y, m | 0 <= y < |w.nodes| ensures RankKept(w, w, y, m) {}
  }

  lemma NextLater(w: World, v: World)
    requires Inv(w) && Next(w, v)
    ensures Later(w, v)
  {
    var step :| Enabled(w, step) && v == After(w, step);
    StepLater(w, step);
  }

  /** Between any two moments of a run: in particular the rank of a message at a node only rises. */
  lemma {:induction false} RunLater(ws: seq<World>, n: nat, i: nat, j: nat)
    requires Run(ws, n) && i <= j < |ws|
    ensures Later(ws[i], ws[j])
    decreases j
  {
    if i == j {
      RunInv(ws, n, j);
      LaterReflexive(ws[j]);
    } else {
      RunLater(ws, n, i, j - 1);
      NextOf(ws, n, j - 1);
      NextLater(ws[j - 1], ws[j]);
      LaterTransitive(ws[i], ws[j - 1], ws[j]);
    }
  }

  // ---------- The order of deliveries ----------

  /** Node `x` has made delivery `a` of message `id`. */
  ghost predicate Delivers(w: World, x: nat, a: nat, id: Id) {
    x < |w.delivered| && a < |w.delivered[x]| && w.delivered[x][a].id == id
  }

  /** When node `x` made delivery `a`, it had received message `id`. */
  ghost predicate HadReceived(w: World, x: nat, a: nat, id: Id)
    requires x < |w.delivered| && a < |w.delivered[x]|
  {
    id in w.delivered[x][a].received
  }

  lemma OrderWithin(w: World, x: nat, a: nat, b: nat, m1: Id, m2: Id)
    requires Inv(w) && Delivers(w, x, a, m1) && Delivers(w, x, b, m2) && Less(Final(w, m1), Final(w, m2))
    ensures a < b <==> HadReceived(w, x, b, m1)
  {
    assert NodeOk(w, x) && OrderOk(w, x, b);
    assert DeliveredBefore(w, x, |w.delivered[x]|, m1) by { assert w.delivered[x][a].id == m1; }
    if HadReceived(w, x, b, m1) {
      assert RankAt(w, x, m1) == Final(w, m1);
      assert DeliveredBefore(w, x, b + 1, m1);
    }
  }

  /** A node delivers two messages in the order of their final ranks exactly if it had received the one of
      smaller rank by the time it delivered the other. */
  lemma OrderAtNode(ws: seq<World>, n: nat, i: nat, x: nat, a: nat, b: nat, m1: Id, m2: Id)
    requires Run(ws, n) && i < |ws| && Delivers(ws[i], x, a, m1) && Delivers(ws[i], x, b, m2)
    requires Less(Final(ws[i], m1), Final(ws[i], m2))
    ensures a < b <==> HadReceived(ws[i], x, b, m1)
  {
    RunInv(ws, n, i);
    OrderWithin(ws[i], x, a, b, m1, m2);
  }

  /** Deliveries are still there later, under the same ranks. */
  lemma DeliversLater(w: World, v: World, x: nat, a: nat, id: Id)
    requires Inv(w) && Inv(v) && Later(w, v) && Delivers(w, x, a, id)
    ensures Delivers(v, x, a, id) && v.delivered[x][a] == w.delivered[x][a] && Final(v, id) == Final(w, id)
  {
    assert NodeOk(w, x) && w.delivered[x] <= v.delivered[x];
    assert id in w.decided && id in v.decided && id in w.casts && id in v.casts;
  }

  /** Whether node `x`, with deliveries `a` and `b`, and node `y`, with deliveries `c` and `d`, agree on the order of
      two messages: they do exactly if both, or neither, received the one of smaller rank in time. */
  lemma SameOrderIff(ws: seq<World>, n: nat, i: nat, j: nat, x: nat, y: nat, a: nat, b: nat, c: nat, d: nat, m1: Id,
    m2: Id)
    requires Run(ws, n) && i <= j < |ws|
    requires Delivers(ws[i], x, a, m1) && Delivers(ws[i], x, b, m2) && Delivers(ws[j], y, c, m1)
      && Delivers(ws[j], y, d, m2)
    requires Less(Final(ws[j], m1), Final(ws[j], m2))
    ensures (a < b <==> c < d) <==> (HadReceived(ws[i], x, b, m1) <==> HadReceived(ws[j], y, d, m1))
  {
    RunInv(ws, n, i);
    RunInv(ws, n, j);
    RunLater(ws, n, i, j);
    DeliversLater(ws[i], ws[j], x, a, m1);
    DeliversLater(ws[i], ws[j], x, b, m2);
    OrderWithin(ws[j], x, a, b, m1, m2);
    OrderWithin(ws[j], y, c, d, m1, m2);
  }

  /** If two nodes each received two messages before they delivered either, and the messages' final ranks differ,
      then both deliver them in the same order, that of the ranks. */
  lemma PairwiseOrder(ws: seq<World>, n: nat, i: nat, j: nat, x: nat, y: nat, a: nat, b: nat, c: nat, d: nat, m1: Id,
    m2: Id)
    requires Run(ws, n) && i <= j < |ws|
    requires Delivers(ws[i], x, a, m1) && Delivers(ws[i], x, b, m2) && Delivers(ws[j], y, c, m1)
      && Delivers(ws[j], y, d, m2)
    requires HadReceived(ws[i], x, a, m2) && HadReceived(ws[i], x, b, m1)
    requires HadReceived(ws[j], y, c, m2) && HadReceived(ws[j], y, d, m1)
    requires Final(ws[j], m1) != Final(ws[j], m2)
    ensures a < b <==> c < d
    ensures a < b <==> Less(Final(ws[j], m1), Final(ws[j], m2))
  {
    RunInv(ws, n, i);
    RunInv(ws, n, j);
    RunLater(ws, n, i, j);
    DeliversLater(ws[i], ws[j], x, a, m1);
    DeliversLater(ws[i], ws[j], x, b, m2);
    if Less(Final(ws[j], m1), Final(ws[j], m2)) {
      OrderWithin(ws[j], x, a, b, m1, m2);
      OrderWithin(ws[j], y, c, d, m1, m2);
    } else {
      OrderWithin(ws[j], x, b, a, m2, m1);
      OrderWithin(ws[j], y, d, c, m2, m1);
      assert NodeOk(ws[j], x) && NodeOk(ws[j], y);
    }
  }

  // ---------- Messages of one sender ----------

  /** What node `x` had not received when it made delivery `j`, it proposed a larger priority for later. */
  ghost predicate NewerLarger(w: World, x: nat, j: nat)
    requires Shape(w) && x < |w.nodes| && j < |w.delivered[x]|
  {
    forall m, m' {:trigger Slot(m, x), Slot(m', x)} ::
      Slot(m, x) in w.made && m !in w.delivered[x][j].received && m' in w.delivered[x][j].received ==>
        Slot(m', x) in w.made && w.made[Slot(m', x)] < w.made[Slot(m, x)]
  }

  ghost predicate AllNewerLarger(w: World) {
    && Shape(w)
    && forall x, j {:trigger NewerLarger(w, x, j)} :: 0 <= x < |w.nodes| && 0 <= j < |w.delivered[x]| ==>
        NewerLarger(w, x, j)
  }

  lemma InitialNewer(w: World, id: Id, x: nat)
    requires Inv(w) && AllNewerLarger(w) && Enabled(w, DeliverInitial(id, x))
    ensures AllNewerLarger(AfterInitial(w, id, x))
  {
    var v := AfterInitial(w, id, x);
    forall y, j | 0 <= y < |v.nodes| && 0 <= j < |v.delivered[y]| ensures NewerLarger(v, y, j) {
      assert NewerLarger(w, y, j) && OrderOk(w, y, j);
      if id !in w.nodes[x].messageCheck && y == x {
        forall m | m in w.delivered[x][j].received ensures Slot(m, x) in w.made && w.made[Slot(m, x)] <= w.nodes[x].p {
          assert SlotOk(w, Slot(m, x));
        }
      }
    }
  }

  lemma PopNewer(w: World, x: nat, id: Id)
    requires Inv(w) && AllNewerLarger(w) && CanPop(w, x, id)
    ensures AllNewerLarger(Pop(w, x, id))
  {
    var v := Pop(w, x, id);
    forall y, j | 0 <= y < |v.nodes| && 0 <= j < |v.delivered[y]| ensures NewerLarger(v, y, j) {
      if j < |w.delivered[y]| {
        assert NewerLarger(w, y, j);
      } else {
        forall m | Slot(m, x) in w.made ensures m in w.nodes[x].messageCheck { assert SlotOk(w, Slot(m, x)); }
      }
    }
  }

  lemma {:induction false} PopAllNewer(w: World, x: nat, out: seq<Id>)
    requires Inv(w) && AllNewerLarger(w) && x < |w.nodes| && Drains(w.nodes[x].queue, out)
    ensures AllNewerLarger(PopAll(w, x, out))
    decreases |out|
  {
    if |out| > 0 {
      PopNewer(w, x, out[0]);
      PopKeepsInv(w, x, out[0]);
      PopAllNewer(Pop(w, x, out[0]), x, out[1..]);
    }
  }

  lemma StepNewer(w: World, step: Step)
    requires Inv(w) && AllNewerLarger(w) && Enabled(w, step)
    ensures AllNewerLarger(After(w, step))
  {
    match step
    case DeliverInitial(id, x) => InitialNewer(w, id, x);
    case DeliverAgreed(slot, out) =>
      AgreedKeepsInv(w, slot);
      SameHistoryNewer(w, AfterAgreed(w, slot));
      PopAllNewer(AfterAgreed(w, slot), slot.node, out);
    case Cast(id, sender) => SameHistoryNewer(w, After(w, step));
    case DeliverProposal(slot) => ProposalRound(w, slot); SameHistoryNewer(w, After(w, step));
  }

  lemma SameHistoryNewer(w: World, v: World)
    requires AllNewerLarger(w) && Shape(v) && |v.nodes| == |w.nodes| && v.made == w.made && v.delivered == w.delivered
    ensures AllNewerLarger(v)
  {
    forall x, j | 0 <= x < |v.nodes| && 0 <= j < |v.delivered[x]|
      ensures NewerLarger(v, x, j)
    {
      assert NewerLarger(w, x, j);
    }
  }

  lemma NextNewer(w: World, v: World)
    requires Inv(w) && AllNewerLarger(w) && Next(w, v)
    ensures AllNewerLarger(v)
  {
    var step :| Enabled(w, step) && v == After(w, step);
    StepNewer(w, step);
  }

  lemma NewerNext(ws: seq<World>, n: nat, i: nat)
    requires Run(ws, n) && i + 1 < |ws| && AllNewerLarger(ws[i])
    ensures AllNewerLarger(ws[i + 1])
  {
    NextOf(ws, n, i);
    NextNewer(ws[i], ws[i + 1]);
  }

  lemma {:induction false} RunNewer(ws: seq<World>, n: nat, i: nat)
    requires Run(ws, n) && i < |ws|
    ensures AllNewerLarger(ws[i])
  {
    if i > 0 {
      RunNewer(ws, n, i - 1);
      NewerNext(ws, n, i - 1);
    }
  }

  /** Every node has received `m1` before `m2`: it has proposed a smaller priority for it. */
  ghost predicate ReceivedFirst(w: World, m1: Id, m2: Id) {
    forall x {:trigger Slot(m1, x)} {:trigger Slot(m2, x)} :: 0 <= x < |w.nodes| ==>
      Slot(m1, x) in w.made && Slot(m2, x) in w.made && w.made[Slot(m1, x)] < w.made[Slot(m2, x)]
  }

  /** If every node received a sender's message `m1` before its message `m2`, the ranks are different, and in that
      order. */
  lemma SenderOrder(ws: seq<World>, n: nat, i: nat, m1: Id, m2: Id)
    requires Run(ws, n) && i < |ws| && m1 in ws[i].announced && m2 in ws[i].announced
    requires m1 in ws[i].casts && m2 in ws[i].casts && ws[i].casts[m1] == ws[i].casts[m2]
    requires ReceivedFirst(ws[i], m1, m2)
    ensures Less(Final(ws[i], m1), Final(ws[i], m2))
  {
    RunInv(ws, n, i);
    AgreementRound(ws, n, i, m1);
    AgreementRound(ws, n, i, m2);
    var w := ws[i];
    var x :| x in Everyone(n) && w.made[Slot(m1, x)] == w.decided[m1];
    assert w.made[Slot(m2, x)] <= w.decided[m2];
  }

  /** Then every node delivers them in that order too. */
  lemma SenderFifo(ws: seq<World>, n: nat, i: nat, x: nat, a: nat, b: nat, m1: Id, m2: Id)
    requires Run(ws, n) && i < |ws| && Delivers(ws[i], x, a, m1) && Delivers(ws[i], x, b, m2)
    requires m1 in ws[i].casts && m2 in ws[i].casts && ws[i].casts[m1] == ws[i].casts[m2]
    requires ReceivedFirst(ws[i], m1, m2)
    ensures a < b
  {
    RunInv(ws, n, i);
    RunNewer(ws, n, i);
    var w := ws[i];
    assert NodeOk(w, x) && NewerLarger(w, x, b) && OrderOk(w, x, b);
    assert Slot(m1, x) in w.made && Slot(m2, x) in w.made;
    SenderOrder(ws, n, i, m1, m2);
    OrderWithin(w, x, a, b, m1, m2);
  }
}
