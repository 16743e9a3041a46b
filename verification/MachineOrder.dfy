/** The order of the queue's values survives every step of the machine that is not a stray
    link. */
module MachineOrder {
  import opened Words
  import opened Machine
  import opened MachineInvariant
  import F = Freelist
  import Q = Queue
  import I = QueueInvariant
  import O = QueueOrder

  /** The step would put a node after one that is outside the chain. */
  ghost predicate Stray(s: System, lab: Label) {
    lab.t in s.threads && Q.StrayLink(s.q, s.threads[lab.t].q, s.fl.place)
  }

  ghost predicate InOrder(s: System) {
    && O.Orderly(s.q, s.fl.place)
    && forall t | t in s.threads :: O.OrderKnows(s.q, s.threads[t].q) && O.OrderOwns(s.q, s.threads[t].q)
  }

  /** What the stepping thread owes to the order. */
  ghost predicate OrderGood(q: Q.Queue, e: Effect) {
    && O.Orderly(e.q, e.fl.place) && O.OrderKnows(e.q, e.th.q) && O.OrderOwns(e.q, e.th.q)
    && q.last <= e.q.last && q.nodes <= e.q.nodes && q.draws <= e.q.draws
  }

  /** Steps outside the queue do not touch nodes, and start no queue loop. */
  lemma OutsideStarts(fl: F.Freelist, q: Q.Queue, th: Thread, lab: Label)
    requires !InQueue(th.q.pc) && q.last < |q.nodes|
    ensures var e := Act(fl, q, th, lab); O.OrderKnows(e.q, e.th.q) && O.OrderOwns(e.q, e.th.q)
    ensures var q' := Act(fl, q, th, lab).q;
      q' == q || (th.q.pc == Q.Create && lab.addr !in q.heap && q' == Q.SetNode(q, lab.addr, lab.junk))
  {
    hide F.StepShared, F.StepFrame, O.NullSeen, O.DrawnNext, O.Drawn;
  }

  /** The places of elements do not concern the order, as long as nothing hangs. */
  lemma OutsideOrderly(fl: F.Freelist, q: Q.Queue, th: Thread, lab: Label)
    requires F.Valid(fl) && F.Knows(fl, th.f, lab.t) && O.NoneBehind(fl.place) && !InQueue(th.q.pc)
    ensures O.NoneBehind(Act(fl, q, th, lab).fl.place)
  {
    FreelistMoves(fl, th.f, lab.t);
    hide F.Valid, F.Knows, F.StepFrame;
  }

  lemma CreateOrderly(q: Q.Queue, place: map<nat, Place>, e: nat, n: Q.Node)
    requires O.Orderly(q, place) && e !in q.heap && Q.Allocated(q.heap, q.nodes)
    ensures O.Orderly(Q.SetNode(q, e, n), place)
  {
  }

  lemma PlaceOrderly(q: Q.Queue, place: map<nat, Place>, place': map<nat, Place>)
    requires O.Orderly(q, place) && O.NoneBehind(place')
    ensures O.Orderly(q, place')
  {
  }

  lemma OutsideGood(fl: F.Freelist, q: Q.Queue, th: Thread, lab: Label)
    requires Sound(fl, q, th, lab.t) && O.Orderly(q, fl.place) && !InQueue(th.q.pc)
    ensures OrderGood(q, Act(fl, q, th, lab))
  {
    hide O.Orderly;
    var e := Act(fl, q, th, lab);
    AllocatedOfValid(q, fl.place);
    NoneBehindOf(q, fl.place);
    hide F.Valid, F.Knows, Q.Valid, Q.EnqKnows, Q.DeqKnows, Q.Owns, Nested, HeldOutside, Act, Q.Allocated;
    hide Q.Ends, O.NoneBehind, O.OrderKnows, O.OrderOwns;
    I.EndsOfValid(q, fl.place);
    OutsideStarts(fl, q, th, lab);
    OutsideOrderly(fl, q, th, lab);
    PlaceOrderly(q, fl.place, e.fl.place);
    if e.q != q {
      CreateOrderly(q, e.fl.place, lab.addr, lab.junk);
    }
  }

  lemma AllocatedOfValid(q: Q.Queue, place: map<nat, Place>)
    requires Q.Valid(q, place)
    ensures Q.Allocated(q.heap, q.nodes)
  {
  }

  lemma NoneBehindOf(q: Q.Queue, place: map<nat, Place>)
    requires O.Orderly(q, place)
    ensures O.NoneBehind(place)
  {
  }

  lemma QueueGoodOrder(fl: F.Freelist, q: Q.Queue, th: Thread, t: Tid)
    requires Sound(fl, q, th, t) && InQueue(th.q.pc) && O.OrderReady(q, fl.place, th.q, t)
    requires !Q.StrayLink(q, th.q, fl.place)
    ensures OrderGood(q, QueueStep(fl, q, th, t))
  {
    O.StepKeepsOrder(q, fl.place, th.q, t);
    O.StepKeepsOrderKnowledge(q, fl.place, th.q, t);
    O.StepKeepsOrderOwnership(q, fl.place, th.q, t);
    I.StepGrows(q, fl.place, th.q, t);
    hide Sound, Q.Step, Q.StepPlace, Q.StepLocal, O.Orderly, O.OrderKnows, O.OrderOwns, Q.Valid, Q.Knows, Q.Owns;
  }

  // ------------------------------------------------------------------- other threads

  lemma OwnerHolds(q: Q.Queue, place: map<nat, Place>, l: Q.Local, u: Tid)
    requires Q.Owns(q, place, l, u) && Q.Owning(l.pc) && l.pc != Q.DeqFe
    ensures l.elem in q.heap && l.elem in place && place[l.elem] == Held(u)
  {
  }

  lemma OrderOwnsSurvives(q: Q.Queue, q': Q.Queue, l: Q.Local)
    requires O.OrderOwns(q, l) && (Q.Owning(l.pc) && l.pc != Q.DeqFe ==> O.Undisturbed(q, q', l.elem))
    ensures O.OrderOwns(q', l)
  {
    if Q.Owning(l.pc) && l.pc != Q.DeqFe {
      O.OrderOwnershipSurvives(q, q', l);
    }
    hide O.DrawnNext, O.Drawn, O.Undisturbed;
  }

  lemma SameUndisturbed(q: Q.Queue, f: nat)
    requires Q.Ends(q)
    ensures O.Undisturbed(q, q, f)
  {
  }

  lemma CreateUndisturbs(q: Q.Queue, e: nat, n: Q.Node, f: nat)
    requires Q.Ends(q) && e !in q.heap && f in q.heap
    ensures O.Undisturbed(q, Q.SetNode(q, e, n), f)
  {
  }

  lemma QueueUndisturbs(fl: F.Freelist, q: Q.Queue, l: Q.Local, t: Tid, f: nat, u: Tid)
    requires I.Ready(q, fl.place, l, t) && O.Orderly(q, fl.place) && !Q.StrayLink(q, l, fl.place)
    requires f in q.heap && f in fl.place && fl.place[f] == Held(u) && u != t
    ensures O.Undisturbed(q, Q.Step(q, l, fl.place), f)
  {
    hide Q.Valid, Q.EnqKnows, Q.DeqKnows, Q.Owns, O.Orderly, O.Undisturbed, Q.StrayLink, Q.Step, Q.LinkFires;
    if I.Writes(l.pc) || Q.LinkFires(q, l) {
      LinkerOwns(q, l);
      OwnerHolds(q, fl.place, l, t);
    }
    O.StepUndisturbs(q, fl.place, l, t, f);
  }

  /** No step disturbs an element that another thread holds. */
  lemma ActUndisturbs(fl: F.Freelist, q: Q.Queue, th: Thread, lab: Label, f: nat, u: Tid)
    requires Sound(fl, q, th, lab.t) && O.Orderly(q, fl.place) && !Q.StrayLink(q, th.q, fl.place)
    requires f in q.heap && f in fl.place && fl.place[f] == Held(u) && u != lab.t
    ensures O.Undisturbed(q, Act(fl, q, th, lab).q, f)
  {
    hide F.Valid, F.Knows, Q.Valid, Q.EnqKnows, Q.DeqKnows, Q.Owns, Nested, HeldOutside;
    hide O.Orderly, O.Undisturbed, Q.StrayLink, Q.Step, Q.StepPlace, Q.StepLocal, Q.LinkFires, Q.Ends;
    I.EndsOfValid(q, fl.place);
    if InQueue(th.q.pc) {
      QueueUndisturbs(fl, q, th.q, lab.t, f, u);
    } else {
      OutsideStarts(fl, q, th, lab);
      hide Act;
      if lab.addr !in q.heap {
        CreateUndisturbs(q, lab.addr, lab.junk, f);
      }
      SameUndisturbed(q, f);
    }
  }

  lemma LinkerOwns(q: Q.Queue, l: Q.Local)
    requires I.Writes(l.pc) || Q.LinkFires(q, l)
    ensures Q.Owning(l.pc) && l.pc != Q.DeqFe
  {
  }

  /** What another thread knows and owns survives. */
  lemma OtherOrder(fl: F.Freelist, q: Q.Queue, th: Thread, lab: Label, l: Q.Local, u: Tid)
    requires Sound(fl, q, th, lab.t) && O.Orderly(q, fl.place) && !Q.StrayLink(q, th.q, fl.place)
    requires u != lab.t && Q.EnqKnows(q, l) && Q.Owns(q, fl.place, l, u) && O.OrderKnows(q, l) && O.OrderOwns(q, l)
    requires OrderGood(q, Act(fl, q, th, lab))
    ensures var q' := Act(fl, q, th, lab).q; O.OrderKnows(q', l) && O.OrderOwns(q', l)
  {
    var q' := Act(fl, q, th, lab).q;
    I.EndsOfValid(q, fl.place);
    hide Sound, Act, O.Orderly, O.OrderKnows, O.OrderOwns, Q.EnqKnows, Q.Owns, O.Undisturbed;
    O.OrderKnowledgeSurvives(q, q', l);
    if Q.Owning(l.pc) && l.pc != Q.DeqFe {
      OwnerHolds(q, fl.place, l, u);
      ActUndisturbs(fl, q, th, lab, l.elem, u);
    }
    OrderOwnsSurvives(q, q', l);
  }

  lemma ActGoodOrder(fl: F.Freelist, q: Q.Queue, th: Thread, lab: Label)
    requires Sound(fl, q, th, lab.t) && O.Orderly(q, fl.place) && O.OrderKnows(q, th.q) && O.OrderOwns(q, th.q)
    requires !Q.StrayLink(q, th.q, fl.place)
    ensures OrderGood(q, Act(fl, q, th, lab))
  {
    hide F.Valid, F.Knows, Q.Valid, Q.Knows, Q.Owns, O.Orderly, O.OrderKnows, O.OrderOwns, OrderGood, QueueStep;
    if InQueue(th.q.pc) {
      QueueGoodOrder(fl, q, th, lab.t);
    } else {
      OutsideGood(fl, q, th, lab);
    }
  }

  lemma OrderOf(s: System, t: Tid)
    requires InOrder(s) && t in s.threads
    ensures O.Orderly(s.q, s.fl.place) && O.OrderKnows(s.q, s.threads[t].q) && O.OrderOwns(s.q, s.threads[t].q)
  {
    hide O.Orderly, O.OrderKnows, O.OrderOwns;
  }

  /** Every step of every thread that is not a stray link keeps the order. */
  lemma NextKeepsOrder(s: System, lab: Label)
    requires Inv(s) && InOrder(s) && !Stray(s, lab)
    ensures InOrder(Next(s, lab))
  {
    hide Inv, Sound, Act, O.Orderly, O.OrderKnows, O.OrderOwns, Q.StrayLink, Q.EnqKnows, Q.DeqKnows, Q.Owns;
    if lab.t in s.threads {
      var s', th := Next(s, lab), s.threads[lab.t];
      SoundThread(s, lab.t);
      OrderOf(s, lab.t);
      ActGoodOrder(s.fl, s.q, th, lab);
      forall u | u in s'.threads ensures O.OrderKnows(s'.q, s'.threads[u].q) && O.OrderOwns(s'.q, s'.threads[u].q) {
        if u != lab.t {
          KnowsOf(s, u);
          OrderOf(s, u);
          OtherOrder(s.fl, s.q, th, lab, s.threads[u].q, u);
        }
      }
    }
  }

  lemma KnowsOf(s: System, t: Tid)
    requires Inv(s) && t in s.threads
    ensures Q.Knows(s.q, s.threads[t].q) && Q.Owns(s.q, s.fl.place, s.threads[t].q, t) && Q.Ends(s.q)
    ensures F.Knows(s.fl, s.threads[t].f, t)
  {
    assert ThreadInv(s.fl, s.q, s.threads[t], t);
    hide F.Valid, HeldInv, Q.EnqKnows, Q.DeqKnows, Q.Owns, F.Knows;
  }
}
