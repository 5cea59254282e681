/** The invariant of the ordered multicast is kept by every step. */
module IsisSafety {
  import opened IsisHeap
  import opened IsisHandlers
  import opened IsisWorld

  lemma InitInv(n: nat)
    requires n >= 2
    ensures Inv(Init(n))
  {}

  // ---------- A delivery ----------

  /** Node `x` may deliver `id` next. */
  ghost predicate CanPop(w: World, x: nat, id: Id)
    requires Shape(w)
  {
    x < |w.nodes| && Head(w.nodes[x].queue, id) && w.nodes[x].queue[id].deliverable
  }

  lemma PopRounds(w: World, x: nat, id: Id)
    requires Inv(w) && CanPop(w, x, id)
    ensures var v := Pop(w, x, id); Shape(v) && forall m {:trigger RoundOk(v, m)} :: m in v.casts ==> RoundOk(v, m)
  {
    var v := Pop(w, x, id);
    forall m | m in v.casts ensures RoundOk(v, m) {
      assert RoundOk(w, m);
      assert Counted(v, m) == Counted(w, m);
    }
  }

  lemma PopSlots(w: World, x: nat, id: Id)
    requires Inv(w) && CanPop(w, x, id)
    ensures var v := Pop(w, x, id);
      Shape(v) && forall m, y {:trigger SlotOk(v, Slot(m, y))} :: 0 <= y < |v.nodes| ==> SlotOk(v, Slot(m, y))
  {
    var v := Pop(w, x, id);
    forall m, y | 0 <= y < |v.nodes| ensures SlotOk(v, Slot(m, y)) {
      assert SlotOk(w, Slot(m, y));
    }
  }

  lemma PopNodes(w: World, x: nat, id: Id)
    requires Inv(w) && CanPop(w, x, id)
    ensures var v := Pop(w, x, id); Shape(v) && forall y {:trigger NodeOk(v, y)} :: 0 <= y < |v.nodes| ==> NodeOk(v, y)
  {
    var v := Pop(w, x, id);
    forall y | 0 <= y < |v.nodes| ensures NodeOk(v, y) {
      assert NodeOk(w, y) && SlotOk(w, Slot(id, x));
      if y == x {
        forall m ensures DeliveredBefore(v, x, |v.delivered[x]|, m) <==>
            DeliveredBefore(w, x, |w.delivered[x]|, m) || m == id {
          BeforePop(w, x, id, x, m, |w.delivered[x]|);
          assert v.delivered[x][|w.delivered[x]|].id == id;
        }
      }
    }
  }

  lemma BeforePop(w: World, x: nat, id: Id, y: nat, m: Id, j: nat)
    requires x < |w.nodes| && |w.delivered| == |w.nodes| && y < |w.nodes| && j <= |w.delivered[y]|
    ensures DeliveredBefore(Pop(w, x, id), y, j, m) <==> DeliveredBefore(w, y, j, m)
  {
    var v := Pop(w, x, id);
    if i :| 0 <= i < j && w.delivered[y][i].id == m { assert v.delivered[y][i].id == m; }
    if i :| 0 <= i < j && v.delivered[y][i].id == m { assert w.delivered[y][i].id == m; }
  }

  lemma PopOrders(w: World, x: nat, id: Id, y: nat, j: nat)
    requires Inv(w) && CanPop(w, x, id) && y < |w.nodes| && j < |Pop(w, x, id).delivered[y]|
    ensures var v := Pop(w, x, id); Shape(v) && OrderOk(v, y, j)
  {
    var v := Pop(w, x, id);
    assert NodeOk(w, x) && SlotOk(w, Slot(id, x));
    if j < |w.delivered[y]| {
      assert OrderOk(w, y, j);
      var d := w.delivered[y][j];
      forall m | m in d.received && !DeliveredBefore(v, y, j + 1, m) ensures !Less(RankAt(v, y, m), Final(v, d.id)) {
        BeforePop(w, x, id, y, m, j + 1);
        assert !Less(RankAt(w, y, m), Final(w, d.id));
      }
    } else {
      var out := w.delivered[x];
      forall m | m in v.delivered[x][j].received && !DeliveredBefore(v, x, j + 1, m)
        ensures !Less(RankAt(v, x, m), Final(v, id))
      {
        assert v.delivered[x][j].id == id;
        BeforePop(w, x, id, x, m, |out|);
      }
      forall i | 0 <= i <= j ensures v.delivered[x][i].id in v.delivered[x][j].received {}
    }
  }

  lemma PopKeepsInv(w: World, x: nat, id: Id)
    requires Inv(w) && CanPop(w, x, id)
    ensures Inv(Pop(w, x, id))
  {
    var v := Pop(w, x, id);
    PopRounds(w, x, id);
    PopSlots(w, x, id);
    PopNodes(w, x, id);
    forall y, j | 0 <= y < |v.nodes| && 0 <= j < |v.delivered[y]|
      ensures OrderOk(v, y, j)
    {
      PopOrders(w, x, id, y, j);
    }
  }

  lemma {:induction false} PopAllKeepsInv(w: World, x: nat, out: seq<Id>)
    requires Inv(w) && x < |w.nodes| && Drains(w.nodes[x].queue, out)
    ensures Inv(PopAll(w, x, out))
    decreases |out|
  {
    if |out| > 0 {
      PopKeepsInv(w, x, out[0]);
      PopAllKeepsInv(Pop(w, x, out[0]), x, out[1..]);
    }
  }

  // ---------- Casts and initial messages ----------

  /** Steps that neither receive nor deliver a message keep every node's books. */
  lemma BooksKept(w: World, v: World)
    requires Inv(w) && Shape(v) && v.delivered == w.delivered && |v.nodes| == |w.nodes|
    requires w.casts.Keys <= v.casts.Keys && w.decided.Keys <= v.decided.Keys
    requires forall x {:trigger v.nodes[x]} :: 0 <= x < |v.nodes| ==>
      && v.nodes[x].messageCheck == w.nodes[x].messageCheck && v.nodes[x].queue.Keys == w.nodes[x].queue.Keys
      && v.nodes[x].p == w.nodes[x].p
      && forall id :: id in v.nodes[x].repliers || id in v.nodes[x].proposed ==> id in v.casts
    ensures forall x {:trigger NodeOk(v, x)} :: 0 <= x < |v.nodes| ==> NodeOk(v, x)
  {
    forall x | 0 <= x < |v.nodes| ensures NodeOk(v, x) {
      assert NodeOk(w, x);
      forall m ensures DeliveredBefore(v, x, |v.delivered[x]|, m) <==> DeliveredBefore(w, x, |w.delivered[x]|, m) {}
      assert v.nodes[x].queue.Keys == w.nodes[x].queue.Keys;
    }
  }

  lemma CastRounds(w: World, id: Id, sender: nat)
    requires Inv(w) && Enabled(w, Cast(id, sender))
    ensures var v := After(w, Cast(id, sender));
      Shape(v) && forall m {:trigger RoundOk(v, m)} :: m in v.casts ==> RoundOk(v, m)
  {
    var v := After(w, Cast(id, sender));
    forall x | 0 <= x < |v.nodes| ensures Slot(id, x) !in w.made { assert SlotOk(w, Slot(id, x)); }
    forall m | m in v.casts ensures RoundOk(v, m) {
      assert Counted(v, m) == Counted(w, m);
      if m != id { assert RoundOk(w, m); } else { assert NodeOk(w, sender); }
    }
  }

  lemma CastOrders(w: World, id: Id, sender: nat, y: nat, j: nat)
    requires Inv(w) && Enabled(w, Cast(id, sender)) && y < |w.nodes| && j < |w.delivered[y]|
    ensures var v := After(w, Cast(id, sender)); Shape(v) && OrderOk(v, y, j)
  {
    var v := After(w, Cast(id, sender));
    assert OrderOk(w, y, j) && NodeOk(w, y);
    var d := w.delivered[y][j];
    forall m | m in d.received && !DeliveredBefore(v, y, j + 1, m) ensures !Less(RankAt(v, y, m), Final(v, d.id)) {
      assert DeliveredBefore(v, y, j + 1, m) <==> DeliveredBefore(w, y, j + 1, m);
      assert !Less(RankAt(w, y, m), Final(w, d.id));
      assert SlotOk(w, Slot(m, y)) && SlotOk(w, Slot(d.id, y));
    }
  }

  lemma CastKeepsInv(w: World, id: Id, sender: nat)
    requires Inv(w) && Enabled(w, Cast(id, sender))
    ensures Inv(After(w, Cast(id, sender)))
  {
    var v := After(w, Cast(id, sender));
    CastRounds(w, id, sender);
    forall m, x | 0 <= x < |v.nodes| ensures SlotOk(v, Slot(m, x)) { assert SlotOk(w, Slot(m, x)); }
    forall x, m | 0 <= x < |v.nodes| && (m in v.nodes[x].repliers || m in v.nodes[x].proposed)
      ensures m in v.casts
    {
      assert NodeOk(w, x);
    }
    BooksKept(w, v);
    forall x, j | 0 <= x < |v.nodes| && 0 <= j < |v.delivered[x]|
      ensures OrderOk(v, x, j)
    {
      CastOrders(w, id, sender, x, j);
    }
  }

  lemma InitialRounds(w: World, id: Id, x: nat)
    requires Inv(w) && Enabled(w, DeliverInitial(id, x)) && id !in w.nodes[x].messageCheck
    ensures var v := AfterInitial(w, id, x);
      Shape(v) && forall m {:trigger RoundOk(v, m)} :: m in v.casts ==> RoundOk(v, m)
  {
    var v := AfterInitial(w, id, x);
    assert SlotOk(w, Slot(id, x));
    forall m | m in v.casts ensures RoundOk(v, m) {
      assert RoundOk(w, m);
      assert Counted(v, m) == Counted(w, m);
    }
  }

  lemma InitialSlots(w: World, id: Id, x: nat)
    requires Inv(w) && Enabled(w, DeliverInitial(id, x)) && id !in w.nodes[x].messageCheck
    ensures var v := AfterInitial(w, id, x);
      Shape(v) && forall m, y {:trigger SlotOk(v, Slot(m, y))} :: 0 <= y < |v.nodes| ==> SlotOk(v, Slot(m, y))
  {
    var v := AfterInitial(w, id, x);
    NotDecided(w, id, x);
    forall m, y | 0 <= y < |v.nodes| ensures SlotOk(v, Slot(m, y)) {
      assert SlotOk(w, Slot(m, y)) && NodeOk(w, x);
    }
  }

  /** As long as a node has not received a message, no priority has been agreed on. */
  lemma NotDecided(w: World, id: Id, x: nat)
    requires Inv(w) && id in w.casts && x < |w.nodes| && id !in w.nodes[x].messageCheck
    ensures id !in w.decided
  {
    assert SlotOk(w, Slot(id, x)) && RoundOk(w, id);
    if |Counted(w, id)| == |w.nodes| { AllCounted(w, id, x); }
  }

  /** When as many nodes as there are have been counted, all of them have. */
  lemma AllCounted(w: World, id: Id, x: nat)
    requires Shape(w) && |Counted(w, id)| == |w.nodes| && x < |w.nodes|
    ensures x in Counted(w, id)
  {
    if x !in Counted(w, id) { Fewer(Counted(w, id), Everyone(|w.nodes|), x); }
  }

  ghost function Everyone(n: nat): (all: set<nat>)
    ensures |all| == n && forall x: nat :: x in all <==> x < n
  {
    if n == 0 then {} else Everyone(n - 1) + {n - 1}
  }

  lemma {:induction false} Fewer<T>(x: set<T>, y: set<T>, e: T)
    requires x <= y && e in y && e !in x
    ensures |x| < |y|
  {
    if x != {} {
      var a :| a in x;
      Fewer(x - {a}, y - {a}, e);
    }
  }

  lemma InitialNodes(w: World, id: Id, x: nat)
    requires Inv(w) && Enabled(w, DeliverInitial(id, x)) && id !in w.nodes[x].messageCheck
    ensures var v := AfterInitial(w, id, x);
      Shape(v) && forall y {:trigger NodeOk(v, y)} :: 0 <= y < |v.nodes| ==> NodeOk(v, y)
  {
    var v := AfterInitial(w, id, x);
    forall y | 0 <= y < |v.nodes| ensures NodeOk(v, y) {
      assert NodeOk(w, y);
      forall m ensures DeliveredBefore(v, y, |v.delivered[y]|, m) <==> DeliveredBefore(w, y, |w.delivered[y]|, m) {}
    }
  }

  lemma InitialOrders(w: World, id: Id, x: nat, y: nat, j: nat)
    requires Inv(w) && Enabled(w, DeliverInitial(id, x)) && id !in w.nodes[x].messageCheck
    requires y < |w.nodes| && j < |w.delivered[y]|
    ensures var v := AfterInitial(w, id, x); Shape(v) && OrderOk(v, y, j)
  {
    var v := AfterInitial(w, id, x);
    assert OrderOk(w, y, j);
    var d := w.delivered[y][j];
    forall m | m in d.received && !DeliveredBefore(v, y, j + 1, m) ensures !Less(RankAt(v, y, m), Final(v, d.id)) {
      assert DeliveredBefore(v, y, j + 1, m) <==> DeliveredBefore(w, y, j + 1, m);
      assert !Less(RankAt(w, y, m), Final(w, d.id));
    }
  }

  lemma InitialKeepsInv(w: World, id: Id, x: nat)
    requires Inv(w) && Enabled(w, DeliverInitial(id, x))
    ensures Inv(After(w, DeliverInitial(id, x)))
  {
    if id !in w.nodes[x].messageCheck {
      var v := AfterInitial(w, id, x);
      InitialRounds(w, id, x);
      InitialSlots(w, id, x);
      InitialNodes(w, id, x);
      forall y, j | 0 <= y < |v.nodes| && 0 <= j < |v.delivered[y]|
        ensures OrderOk(v, y, j)
      {
        InitialOrders(w, id, x, y, j);
      }
    }
  }

  // ---------- Proposals ----------

  lemma CountedAfter(w: World, slot: Slot)
    requires Inv(w) && slot in w.proposals
    ensures var v := AfterProposal(w, slot);
      Counted(v, slot.id) == Counted(w, slot.id) + {slot.node} && slot.node !in Counted(w, slot.id)
    ensures var v := AfterProposal(w, slot); forall id :: id != slot.id ==> Counted(v, id) == Counted(w, id)
  {
    var v := AfterProposal(w, slot);
    assert slot == Slot(slot.id, slot.node) && SlotOk(w, slot);
    forall id | id != slot.id ensures Counted(v, id) == Counted(w, id) {}
  }

  lemma MaxAfter(w: World, v: World, id: Id, xs: set<nat>, x: nat, top: int)
    requires v.made == w.made && Slot(id, x) in w.made
    requires xs != {} ==> IsMax(w, id, xs, top)
    ensures IsMax(v, id, xs + {x}, if xs != {} && top >= w.made[Slot(id, x)] then top else w.made[Slot(id, x)])
  {
    var top' := if xs != {} && top >= w.made[Slot(id, x)] then top else w.made[Slot(id, x)];
    if xs != {} && top >= w.made[Slot(id, x)] {
      var y :| y in xs && w.made[Slot(id, y)] == top;
      assert y in xs + {x} && v.made[Slot(id, y)] == top';
    } else {
      assert x in xs + {x} && v.made[Slot(id, x)] == top';
    }
  }

  /** The round of the message itself: one more reply, and the announcement with the last one. */
  lemma ProposalRound(w: World, slot: Slot)
    requires Inv(w) && slot in w.proposals
    ensures var v := AfterProposal(w, slot); Shape(v) && RoundOk(v, slot.id)
    ensures Completes(w.nodes[w.casts[slot.id]], slot.id, |w.nodes|) <==> |Counted(w, slot.id)| + 1 == |w.nodes|
    ensures slot.id !in w.decided
  {
    var id, v := slot.id, AfterProposal(w, slot);
    var s, xs := w.nodes[w.casts[id]], Counted(w, id);
    assert slot == Slot(id, slot.node) && SlotOk(w, slot) && RoundOk(w, id);
    CountedAfter(w, slot);
    MaxAfter(w, v, id, xs, slot.node, if id in s.proposed then s.proposed[id] else 0);
    if |xs| == |w.nodes| { AllCounted(w, id, slot.node); }
    assert |Counted(v, id)| == |xs| + 1;
  }

  lemma ProposalRounds(w: World, slot: Slot)
    requires Inv(w) && slot in w.proposals
    ensures var v := AfterProposal(w, slot);
      Shape(v) && forall m {:trigger RoundOk(v, m)} :: m in v.casts ==> RoundOk(v, m)
  {
    var v := AfterProposal(w, slot);
    ProposalRound(w, slot);
    CountedAfter(w, slot);
    forall m | m in v.casts && m != slot.id ensures RoundOk(v, m) {
      assert RoundOk(w, m);
    }
  }

  /** Every node has received a message whose round is complete. */
  lemma ProposalSlots(w: World, slot: Slot)
    requires Inv(w) && slot in w.proposals
    ensures var v := AfterProposal(w, slot);
      Shape(v) && forall m, y {:trigger SlotOk(v, Slot(m, y))} :: 0 <= y < |v.nodes| ==> SlotOk(v, Slot(m, y))
  {
    var v := AfterProposal(w, slot);
    ProposalRound(w, slot);
    forall m, y | 0 <= y < |v.nodes| ensures SlotOk(v, Slot(m, y)) {
      assert SlotOk(w, Slot(m, y)) && NodeOk(w, y);
      if m == slot.id && m in v.decided {
        assert RoundOk(v, m);
        AllCounted(v, m, y);
        Waiting(w, m, y);
      }
    }
  }

  /** A message nobody has agreed on stays in the queue of every node that has received it. */
  lemma Waiting(w: World, id: Id, x: nat)
    requires Inv(w) && x < |w.nodes| && id in w.nodes[x].messageCheck && id !in w.decided
    ensures id in w.nodes[x].queue && !w.nodes[x].queue[id].deliverable
  {
    assert NodeOk(w, x) && SlotOk(w, Slot(id, x));
  }

  lemma ProposalOrders(w: World, slot: Slot, y: nat, j: nat)
    requires Inv(w) && slot in w.proposals && y < |w.nodes| && j < |w.delivered[y]|
    ensures var v := AfterProposal(w, slot); Shape(v) && OrderOk(v, y, j)
  {
    var v := AfterProposal(w, slot);
    ProposalRound(w, slot);
    assert OrderOk(w, y, j) && NodeOk(w, y);
    var d := w.delivered[y][j];
    forall m | m in d.received && !DeliveredBefore(v, y, j + 1, m) ensures !Less(RankAt(v, y, m), Final(v, d.id)) {
      assert DeliveredBefore(v, y, j + 1, m) <==> DeliveredBefore(w, y, j + 1, m);
      assert !Less(RankAt(w, y, m), Final(w, d.id));
      if m == slot.id { Waiting(w, m, y); }
    }
  }

  lemma ProposalBooks(w: World, slot: Slot)
    requires Inv(w) && slot in w.proposals
    ensures var v := AfterProposal(w, slot);
      Shape(v) && forall x {:trigger NodeOk(v, x)} :: 0 <= x < |v.nodes| ==> NodeOk(v, x)
  {
    var v := AfterProposal(w, slot);
    forall x, m | 0 <= x < |v.nodes| && (m in v.nodes[x].repliers || m in v.nodes[x].proposed)
      ensures m in v.casts
    {
      assert NodeOk(w, x);
    }
    BooksKept(w, v);
  }

  lemma ProposalKeepsInv(w: World, slot: Slot)
    requires Inv(w) && Enabled(w, DeliverProposal(slot))
    ensures Inv(After(w, DeliverProposal(slot)))
  {
    var v := AfterProposal(w, slot);
    ProposalRound(w, slot);
    ProposalRounds(w, slot);
    ProposalSlots(w, slot);
    ProposalBooks(w, slot);
    forall y, j | 0 <= y < |v.nodes| && 0 <= j < |v.delivered[y]|
      ensures OrderOk(v, y, j)
    {
      ProposalOrders(w, slot, y, j);
    }
  }

  // ---------- Agreed priorities ----------

  /** The queue keeps its messages, and the rank of the agreed one can only rise. */
  lemma AgreedRises(w: World, slot: Slot)
    requires Inv(w) && slot in w.agreed
    ensures slot.id in w.nodes[slot.node].queue && !w.nodes[slot.node].queue[slot.id].deliverable
    ensures slot.id in w.decided
      && w.agreed[slot] == w.decided[slot.id] >= w.nodes[slot.node].queue[slot.id].rank.priority
    ensures slot.id in w.casts && w.nodes[slot.node].queue[slot.id].rank.sender == w.casts[slot.id]
  {
    assert slot == Slot(slot.id, slot.node) && SlotOk(w, slot) && RoundOk(w, slot.id);
    AllCounted(w, slot.id, slot.node);
  }

  lemma AgreedOrders(w: World, slot: Slot, y: nat, j: nat)
    requires Inv(w) && slot in w.agreed && y < |w.nodes| && j < |w.delivered[y]| && slot.id in w.nodes[slot.node].queue
    ensures var v := AfterAgreed(w, slot); Shape(v) && OrderOk(v, y, j)
  {
    var v := AfterAgreed(w, slot);
    AgreedRises(w, slot);
    assert OrderOk(w, y, j);
    var d := w.delivered[y][j];
    forall m | m in d.received && !DeliveredBefore(v, y, j + 1, m) ensures !Less(RankAt(v, y, m), Final(v, d.id)) {
      assert DeliveredBefore(v, y, j + 1, m) <==> DeliveredBefore(w, y, j + 1, m);
      assert !Less(RankAt(w, y, m), Final(w, d.id));
    }
  }

  lemma AgreedRounds(w: World, slot: Slot)
    requires Inv(w) && slot in w.agreed && slot.id in w.nodes[slot.node].queue
    ensures var v := AfterAgreed(w, slot);
      Shape(v) && forall m {:trigger RoundOk(v, m)} :: m in v.casts ==> RoundOk(v, m)
  {
    var v := AfterAgreed(w, slot);
    forall m | m in v.casts ensures RoundOk(v, m) {
      assert RoundOk(w, m) && Counted(v, m) == Counted(w, m);
    }
  }

  lemma AgreedSlots(w: World, slot: Slot)
    requires Inv(w) && slot in w.agreed && slot.id in w.nodes[slot.node].queue
    ensures var v := AfterAgreed(w, slot);
      Shape(v) && forall m, y {:trigger SlotOk(v, Slot(m, y))} :: 0 <= y < |v.nodes| ==> SlotOk(v, Slot(m, y))
  {
    var v := AfterAgreed(w, slot);
    AgreedRises(w, slot);
    forall m, y | 0 <= y < |v.nodes| ensures SlotOk(v, Slot(m, y)) { assert SlotOk(w, Slot(m, y)); }
  }

  lemma AgreedKeepsInv(w: World, slot: Slot)
    requires Inv(w) && slot in w.agreed && slot.id in w.nodes[slot.node].queue
    ensures Inv(AfterAgreed(w, slot))
  {
    var v := AfterAgreed(w, slot);
    AgreedRounds(w, slot);
    AgreedSlots(w, slot);
    forall x | 0 <= x < |w.nodes| ensures NodeOk(w, x) && v.nodes[x].queue.Keys == w.nodes[x].queue.Keys {}
    BooksKept(w, v);
    forall y, j | 0 <= y < |v.nodes| && 0 <= j < |v.delivered[y]|
      ensures OrderOk(v, y, j)
    {
      AgreedOrders(w, slot, y, j);
    }
  }

  lemma StepKeepsInv(w: World, step: Step)
    requires Inv(w) && Enabled(w, step)
    ensures Inv(After(w, step))
  {
    match step
    case Cast(id, sender) => CastKeepsInv(w, id, sender);
    case DeliverInitial(id, x) => InitialKeepsInv(w, id, x);
    case DeliverProposal(slot) => ProposalKeepsInv(w, slot);
    case DeliverAgreed(slot, out) =>
      AgreedKeepsInv(w, slot);
      PopAllKeepsInv(AfterAgreed(w, slot), slot.node, out);
  }
}
