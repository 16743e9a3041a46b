/** When a stray link can happen at all, and the shape of the chain in schedules without
    torn links. */
module Guarantees {
  import opened Words
  import opened Machine
  import opened MachineInvariant
  import opened MachineOrder
  import opened Fifo
  import opened Values
  import F = Freelist
  import Q = Queue
  import I = QueueInvariant
  import O = QueueOrder

  // ----------------------------------------------------------------- stray links

  /** The first stray link of a schedule needs a pair that was torn by another thread's link,
      and a target that some other thread holds in the middle of an enqueue. */
  lemma StrayNeedsTornPair(s: System, lab: Label)
    requires Inv(s) && InOrder(s) && Stray(s, lab)
    ensures O.Torn(s.threads[lab.t].q)
    ensures exists u :: u in s.threads && u != lab.t && Preparing(s.threads[u].q.pc)
                        && s.threads[u].q.elem == s.threads[lab.t].q.enq.ptr
  {
    var l, x := s.threads[lab.t].q, s.threads[lab.t].q.enq.ptr;
    KnowsOf(s, lab.t);
    StrayIsTorn(s.q, s.fl.place, l);
    hide F.Valid, Q.Valid, Q.EnqKnows, Q.DeqKnows, Q.Owns, ThreadInv, O.OrderKnows, O.OrderOwns, O.Torn;
    hide O.Open, O.Spent, O.Counted;
    StrayIsHeld(s.q, s.fl.place, l, lab.t);
    HolderElse(s, lab.t);
    var u := s.fl.place[x].owner;
    HolderOwns(s.fl, s.q, s.threads[u], u, x);
    OwningPrepares(s.threads[u].q);
  }

  lemma OwningPrepares(l: Q.Local)
    requires Q.Owning(l.pc) && l.pc !in {Q.InitDraw, Q.InitNextPtr, Q.DeqFe}
    ensures Preparing(l.pc) && l.elem == Q.Owned(l)
  {
  }

  lemma StrayIsTorn(q: Q.Queue, place: map<nat, Place>, l: Q.Local)
    requires Q.Valid(q, place) && O.Orderly(q, place) && Q.EnqKnows(q, l) && O.OrderKnows(q, l)
    requires Q.StrayLink(q, l, place)
    ensures O.Torn(l)
  {
    hide Q.Chained, Q.Loaded, Q.Retired, Q.Hung, Q.Ended, Q.Aged, Q.Tagged, Q.TaggedBehind, Q.TagsUsed;
    hide Q.EnqKnows, O.OrderKnows, O.Open, O.Spent, O.Torn, Q.LinkFires, Q.IsLive;
    if !O.Torn(l) {
      O.UntornLinkHitsLast(q, place, l);
    }
  }

  // -------------------------------------------------------------- shape of the chain

  /** A link swap succeeds with a pair whose two words were read on either side of
      another link. */
  ghost predicate TornLink(s: System, lab: Label) {
    && lab.t in s.threads
    && Q.LinkFires(s.q, s.threads[lab.t].q)
    && O.Torn(s.threads[lab.t].q)
  }

  ghost predicate TearFree(s: System, labels: seq<Label>, n: nat)
    requires n <= |labels|
  {
    forall i | 0 <= i < n :: !TornLink(Before(s, labels, i), labels[i])
  }

  /** `enq` points at the last node or at the one before it. */
  ghost predicate Close(q: Q.Queue) {
    q.last + 2 >= |q.nodes|
  }

  lemma CloseLink(q: Q.Queue, place: map<nat, Place>, l: Q.Local)
    requires Q.Valid(q, place) && O.Orderly(q, place) && Q.EnqKnows(q, l) && O.OrderKnows(q, l)
    requires Q.LinkFires(q, l) && !O.Torn(l)
    ensures Close(Q.Step(q, l, place))
  {
    hide Q.Chained, Q.Loaded, Q.Retired, Q.Hung, Q.Ended, Q.Aged, Q.Tagged, Q.TaggedBehind, Q.TagsUsed;
    O.UntornLinkHitsLast(q, place, l);
    hide Q.EnqKnows, O.OrderKnows, O.Open, O.Spent, Q.Placed;
  }

  lemma StepKeepsClose(q: Q.Queue, place: map<nat, Place>, l: Q.Local, t: Tid)
    requires Q.Valid(q, place) && O.Orderly(q, place) && Q.Knows(q, l) && O.OrderKnows(q, l)
    requires Close(q) && (Q.LinkFires(q, l) ==> !O.Torn(l)) && (I.Writes(l.pc) ==> l.elem in q.heap)
    ensures Close(Q.Step(q, l, place))
  {
    hide Q.Valid, O.Orderly, Q.Knows, O.OrderKnows, Q.Step, Q.StepPlace, Q.LinkFires, O.Torn;
    if Q.LinkFires(q, l) {
      assert Q.EnqKnows(q, l) by { EnqOfKnows(q, l); }
      CloseLink(q, place, l);
    } else if I.Writes(l.pc) {
      I.WriteStep(q, place, l, t);
    } else if I.Swings(l.pc) && q.enq == l.enq {
      O.SwingIsShort(q, place, l);
      I.SwingStep(q, place, l, t);
    } else if l.pc == Q.DeqSwap && q.deq == l.deq {
      I.HeadStep(q, place, l, t);
    } else {
      I.QuietStep(q, place, l, t);
    }
  }

  lemma EnqOfKnows(q: Q.Queue, l: Q.Local)
    requires Q.Knows(q, l)
    ensures Q.EnqKnows(q, l)
  {
  }

  lemma OutsideQueue(fl: F.Freelist, q: Q.Queue, th: Thread, lab: Label)
    requires !InQueue(th.q.pc)
    ensures var q' := Act(fl, q, th, lab).q; q' == q.(heap := q'.heap)
  {
  }

  lemma ActKeepsClose(fl: F.Freelist, q: Q.Queue, th: Thread, lab: Label)
    requires Q.Valid(q, fl.place) && O.Orderly(q, fl.place) && Q.Knows(q, th.q) && O.OrderKnows(q, th.q)
    requires Q.Owns(q, fl.place, th.q, lab.t)
    requires Close(q) && (Q.LinkFires(q, th.q) ==> !O.Torn(th.q))
    ensures Close(Act(fl, q, th, lab).q)
  {
    WriterOwns(q, fl.place, th.q, lab.t);
    hide Close, Q.Valid, Q.Knows, Q.LinkFires, O.Torn, O.Orderly, O.OrderKnows, Q.Owns, Q.Step, Q.StepPlace;
    if InQueue(th.q.pc) {
      StepKeepsClose(q, fl.place, th.q, lab.t);
    } else {
      OutsideQueue(fl, q, th, lab);
      CloseIgnoresHeap(q, Act(fl, q, th, lab).q);
    }
  }

  lemma WriterOwns(q: Q.Queue, place: map<nat, Place>, l: Q.Local, t: Tid)
    requires Q.Owns(q, place, l, t)
    ensures I.Writes(l.pc) ==> l.elem in q.heap
  {
  }

  /** A step that is not a torn link is no stray link and keeps `enq` close to the end. */
  lemma NextKeepsClose(s: System, lab: Label)
    requires Inv(s) && InOrder(s) && Close(s.q) && !TornLink(s, lab)
    ensures !Stray(s, lab) && Close(Next(s, lab).q)
  {
    hide F.Valid, Q.Valid, Q.EnqKnows, Q.DeqKnows, Q.Owns, ThreadInv, HeldInv, O.Orderly, O.OrderKnows, O.OrderOwns;
    hide Act, Close, O.Torn, Q.LinkFires;
    if lab.t in s.threads {
      var th := s.threads[lab.t];
      KnowsOf(s, lab.t);
      ActKeepsClose(s.fl, s.q, th, lab);
      if Stray(s, lab) {
        StrayNeedsTornPair(s, lab);
      }
    }
  }

  lemma CloseIgnoresHeap(q: Q.Queue, q': Q.Queue)
    requires Close(q) && q' == q.(heap := q'.heap)
    ensures Close(q')
  {
  }

  lemma {:induction false} TearFreeRun(s: System, labels: seq<Label>, i: nat)
    requires Inv(s) && InOrder(s) && Close(s.q) && i <= |labels| && TearFree(s, labels, i)
    ensures InOrder(Before(s, labels, i)) && Close(Before(s, labels, i).q)
    ensures forall j | 0 <= j < i :: !StrayAt(s, labels, j)
  {
    hide Inv, InOrder, Close, Next, Stray, TornLink;
    if i > 0 {
      TearFreeRun(s, labels, i - 1);
      RunKeepsInv(s, labels, i - 1);
      RunStep(s, labels, i - 1);
      NextKeepsClose(Before(s, labels, i - 1), labels[i - 1]);
      NextKeepsOrder(Before(s, labels, i - 1), labels[i - 1]);
    }
  }

  /** While the order holds, the chain has one node more than the queue has values. */
  lemma ChainLength(s: System) returns (c: seq<nat>, at: nat)
    requires Inv(s) && InOrder(s)
    ensures IsChain(s.q.heap, s.q.deq.ptr, c) && at < |c| && c[at] == s.q.enq.ptr
    ensures |c| == |s.q.linked| - |s.q.out| + 1
    ensures Close(s.q) ==> at + 2 >= |c|
  {
    hide Q.Valid, F.Valid, ThreadInv, HeldInv, O.Orderly, IsChain, Close;
    c, at := LengthOfLive(s.q, s.fl.place);
  }

  lemma LengthOfLive(q: Q.Queue, place: map<nat, Place>) returns (c: seq<nat>, at: nat)
    requires Q.Valid(q, place) && O.Orderly(q, place)
    ensures IsChain(q.heap, q.deq.ptr, c) && at < |c| && c[at] == q.enq.ptr
    ensures |c| == |q.linked| - |q.out| + 1
    ensures Close(q) ==> at + 2 >= |c|
  {
    hide Q.Valid, O.Orderly, IsChain, Data, Q.Ends;
    I.EndsOfValid(q, place);
    LengthOfValues(q, place);
    LiveChain(q, place);
    c, at := q.nodes[q.first..], q.last - q.first;
  }

  /** If no link swap succeeds with a torn pair, the queue is first-in first-out
      throughout, and `enq` is always at the last node or the one before it. */
  lemma TearFreeIsFifo(s: System, n: nat, labels: seq<Label>)
    requires Init(s, n) && TearFree(s, labels, |labels|)
    ensures forall i | 0 <= i <= |labels| :: IsFifo(Before(s, labels, i).q) && Close(Before(s, labels, i).q)
  {
    InitInv(s, n);
    InitOrder(s, n);
    assert Close(s.q);
    hide Inv, InOrder, Init, IsFifo, Close, TornLink, Before;
    forall i | 0 <= i <= |labels| ensures IsFifo(Before(s, labels, i).q) && Close(Before(s, labels, i).q) {
      assert TearFree(s, labels, i);
      TearFreeRun(s, labels, i);
      RunKeepsInv(s, labels, i);
      InvIsFifo(Before(s, labels, i));
    }
  }
}
