/** Lock-freedom: a pass through a retry loop fails only if some thread's swap succeeded
    during it. */
module Progress {
  import opened Words
  import opened Machine
  import opened MachineInvariant
  import opened MachineOrder
  import opened Fifo
  import opened Calls
  import F = Freelist
  import Q = Queue
  import I = QueueInvariant

  /** While no swap has succeeded since the pass began, what the call has read is current. */
  ghost predicate Current(q: Q.Queue, l: Q.Local) {
    match l.pc
    case EnqCtr => l.enq.ptr == q.enq.ptr
    case EnqNextPtr => l.enq == q.enq
    case EnqNextCtr => l.enq == q.enq && l.next.ptr == Q.At(q.heap, q.enq.ptr).next.ptr
    case EnqCheckPtr | EnqCheckCtr | EnqLink => l.enq == q.enq && l.next == Q.At(q.heap, q.enq.ptr).next
    case EnqHelp => l.enq == q.enq
    case DeqCtr => l.deq.ptr == q.deq.ptr
    case DeqEnqPtr => l.deq == q.deq
    case DeqEnqCtr => l.deq == q.deq && l.enq.ptr == q.enq.ptr
    case DeqNextPtr | DeqData | DeqSwap => l.deq == q.deq && l.enq == q.enq
    case DeqNextCtr | DeqCheckPtr | DeqCheckCtr | DeqHelp =>
      l.deq == q.deq && l.enq == q.enq && l.next.ptr == Q.At(q.heap, q.deq.ptr).next.ptr
    case _ => true
  }

  ghost predicate Watched(q: Q.Queue, l: Q.Local) {
    l.mark <= q.commits && (l.mark == q.commits ==> Current(q, l))
  }

  /** As long as no swap succeeds, the words that calls read stay as they are. */
  ghost predicate Calm(q: Q.Queue, q': Q.Queue) {
    && q.commits <= q'.commits
    && (q.commits == q'.commits ==>
          && q'.enq == q.enq && q'.deq == q.deq
          && Q.At(q'.heap, q.enq.ptr).next == Q.At(q.heap, q.enq.ptr).next
          && Q.At(q'.heap, q.deq.ptr).next == Q.At(q.heap, q.deq.ptr).next)
  }

  lemma CalmKeepsWatched(q: Q.Queue, q': Q.Queue, l: Q.Local)
    requires Calm(q, q') && Watched(q, l)
    ensures Watched(q', l)
  {
  }

  lemma StepIsCalm(q: Q.Queue, place: map<nat, Place>, l: Q.Local, t: Tid)
    requires I.Ready(q, place, l, t)
    ensures Calm(q, Q.Step(q, l, place))
  {
    I.LiveNodes(q, place);
    I.EndsOfValid(q, place);
    hide Q.Valid, Q.EnqKnows, Q.DeqKnows, Q.Step, Q.StepPlace, Q.Bears, Q.Clear;
    if I.Writes(l.pc) {
      I.WriteStep(q, place, l, t);
    } else if Q.LinkFires(q, l) {
      I.LinkStep(q, place, l, t);
    } else if I.Swings(l.pc) && q.enq == l.enq {
      I.SwingStep(q, place, l, t);
    } else if l.pc == Q.DeqSwap && q.deq == l.deq {
      I.HeadStep(q, place, l, t);
    } else {
      I.QuietStep(q, place, l, t);
    }
  }

  lemma ReadIsCurrent(q: Q.Queue, l: Q.Local)
    requires Watched(q, l) && Reads(l.pc)
    ensures Watched(q, Q.StepLocal(q, l))
  {
  }

  predicate Reads(pc: Q.Pc) {
    pc in {Q.EnqPtr, Q.EnqCtr, Q.EnqNextPtr, Q.EnqNextCtr, Q.EnqCheckPtr, Q.EnqCheckCtr, Q.DeqPtr, Q.DeqCtr,
           Q.DeqEnqPtr, Q.DeqEnqCtr, Q.DeqNextPtr, Q.DeqNextCtr, Q.DeqCheckPtr, Q.DeqCheckCtr, Q.DeqData}
  }

  lemma OtherIsCurrent(q: Q.Queue, q': Q.Queue, l: Q.Local)
    requires Watched(q, l) && InQueue(l.pc) && !Reads(l.pc) && q.commits <= q'.commits
    ensures Watched(q', Q.StepLocal(q, l))
  {
  }

  lemma StepKeepsWatched(q: Q.Queue, place: map<nat, Place>, l: Q.Local, t: Tid)
    requires Calm(q, Q.Step(q, l, place)) && Watched(q, l) && InQueue(l.pc)
    ensures Watched(Q.Step(q, l, place), Q.StepLocal(q, l))
  {
    hide Watched, Q.StepLocal, Q.Step;
    if Reads(l.pc) {
      ReadIsCurrent(q, l);
      I.ReadsOnly(q, place, l);
    } else {
      OtherIsCurrent(q, Q.Step(q, l, place), l);
    }
  }

  /** Back at the head of a retry loop. */
  predicate LoopTop(pc: Q.Pc) {
    pc == Q.EnqPtr || pc == Q.DeqPtr
  }

  predicate InLoop(pc: Q.Pc) {
    pc in {Q.EnqCtr, Q.EnqNextPtr, Q.EnqNextCtr, Q.EnqCheckPtr, Q.EnqCheckCtr, Q.EnqLink, Q.EnqHelp,
           Q.DeqCtr, Q.DeqEnqPtr, Q.DeqEnqCtr, Q.DeqNextPtr, Q.DeqNextCtr, Q.DeqCheckPtr, Q.DeqCheckCtr,
           Q.DeqHelp, Q.DeqData, Q.DeqSwap}
  }

  /** A pass that ends without finishing the operation saw a successful swap: one of
      another thread, or its own helping swap. */
  lemma RetryStep(q: Q.Queue, place: map<nat, Place>, l: Q.Local)
    requires Watched(q, l) && InLoop(l.pc) && LoopTop(Q.StepLocal(q, l).pc)
    requires l.pc == Q.EnqLink ==> l.next.ptr == NULL
    ensures Q.Step(q, l, place).commits > l.mark
  {
  }

  ghost predicate AllWatched(s: System) {
    forall t | t in s.threads :: Watched(s.q, s.threads[t].q)
  }

  /** A step outside the queue creates a node at most. */
  lemma OutsideSteps(fl: F.Freelist, q: Q.Queue, th: Thread, lab: Label)
    requires !InQueue(th.q.pc)
    ensures var e := Act(fl, q, th, lab);
      && (e.q == q || (lab.addr !in q.heap && e.q == Q.SetNode(q, lab.addr, lab.junk)))
      && e.th.q.mark == th.q.mark && Unread(e.th.q.pc)
  {
    hide F.StepShared, F.StepFrame;
  }

  /** At these places nothing has been read that has to be current. */
  predicate Unread(pc: Q.Pc) {
    !InLoop(pc)
  }

  lemma CreateIsCalm(q: Q.Queue, e: nat, n: Q.Node)
    requires Q.Ends(q) && Q.Allocated(q.heap, q.nodes) && e !in q.heap
    ensures Calm(q, Q.SetNode(q, e, n))
  {
  }

  lemma UnreadIsWatched(q: Q.Queue, l: Q.Local)
    requires l.mark <= q.commits && Unread(l.pc)
    ensures Watched(q, l)
  {
  }

  lemma OutsideWatched(fl: F.Freelist, q: Q.Queue, th: Thread, lab: Label)
    requires Q.Ends(q) && Q.Allocated(q.heap, q.nodes) && Watched(q, th.q) && !InQueue(th.q.pc)
    ensures var e := Act(fl, q, th, lab); Calm(q, e.q) && Watched(e.q, e.th.q)
  {
    OutsideSteps(fl, q, th, lab);
    assert th.q.mark <= q.commits;
    hide Act, Watched, Unread, Calm, Q.Ends, Q.Allocated;
    var e := Act(fl, q, th, lab);
    if lab.addr !in q.heap {
      CreateIsCalm(q, lab.addr, lab.junk);
    }
    StillIsCalm(q);
    UnreadIsWatched(e.q, e.th.q);
  }

  lemma StillIsCalm(q: Q.Queue)
    ensures Calm(q, q)
  {
  }

  lemma ActWatched(fl: F.Freelist, q: Q.Queue, th: Thread, lab: Label)
    requires I.Ready(q, fl.place, th.q, lab.t) && Watched(q, th.q)
    ensures var e := Act(fl, q, th, lab); Calm(q, e.q) && Watched(e.q, e.th.q)
  {
    I.EndsOfValid(q, fl.place);
    assert Q.Allocated(q.heap, q.nodes);
    hide Q.Valid, Q.EnqKnows, Q.DeqKnows, Q.Owns, Calm, Watched, Q.Step, Q.StepLocal, Q.StepPlace;
    if InQueue(th.q.pc) {
      StepIsCalm(q, fl.place, th.q, lab.t);
      StepKeepsWatched(q, fl.place, th.q, lab.t);
    } else {
      OutsideWatched(fl, q, th, lab);
    }
  }

  lemma NextKeepsWatched(s: System, lab: Label)
    requires Inv(s) && AllWatched(s)
    ensures AllWatched(Next(s, lab))
  {
    if lab.t in s.threads {
      ReadyOf(s, lab.t);
      hide Inv, I.Ready, Act, Watched, Calm;
      ActWatched(s.fl, s.q, s.threads[lab.t], lab);
      forall t | t in s.threads && t != lab.t ensures Watched(Next(s, lab).q, s.threads[t].q) {
        CalmKeepsWatched(s.q, Next(s, lab).q, s.threads[t].q);
      }
    }
  }

  lemma ReadyOf(s: System, t: Tid)
    requires Inv(s) && t in s.threads
    ensures I.Ready(s.q, s.fl.place, s.threads[t].q, t)
  {
    KnowsOf(s, t);
    hide Q.Valid, F.Valid, Q.EnqKnows, Q.DeqKnows, Q.Owns, ThreadInv, HeldInv;
  }

  lemma {:induction false} RunKeepsWatched(s: System, labels: seq<Label>, i: nat)
    requires Inv(s) && AllWatched(s) && i <= |labels|
    ensures AllWatched(Before(s, labels, i))
  {
    hide Inv, AllWatched, Next;
    if i > 0 {
      RunKeepsInv(s, labels, i - 1);
      RunKeepsWatched(s, labels, i - 1);
      RunStep(s, labels, i - 1);
      NextKeepsWatched(Before(s, labels, i - 1), labels[i - 1]);
    }
  }

  /** Thread `t` began a pass with step `j` and has been in its loop ever since. */
  ghost predicate LoopSince(s: System, labels: seq<Label>, i: nat, t: Tid, j: nat)
    requires i <= |labels|
  {
    && j < i && labels[j].t == t
    && t in Before(s, labels, j).threads && LoopTop(Before(s, labels, j).threads[t].q.pc)
    && forall k | j < k <= i :: t in Before(s, labels, k).threads && InLoop(Before(s, labels, k).threads[t].q.pc)
  }

  lemma LoopLocalBack(q: Q.Queue, l: Q.Local)
    requires InQueue(l.pc) && InLoop(Q.StepLocal(q, l).pc)
    ensures if LoopTop(l.pc) then Q.StepLocal(q, l).mark == q.commits
            else InLoop(l.pc) && Q.StepLocal(q, l).mark == l.mark
  {
  }

  lemma OutsideLoop(fl: F.Freelist, q: Q.Queue, th: Thread, lab: Label)
    requires !InQueue(th.q.pc)
    ensures !InLoop(Act(fl, q, th, lab).th.q.pc)
  {
    hide F.StepShared, F.StepFrame;
  }

  lemma LoopBack(fl: F.Freelist, q: Q.Queue, th: Thread, lab: Label)
    requires InLoop(Act(fl, q, th, lab).th.q.pc)
    ensures if LoopTop(th.q.pc) then Act(fl, q, th, lab).th.q.mark == q.commits
            else InLoop(th.q.pc) && Act(fl, q, th, lab).th.q.mark == th.q.mark
  {
    if InQueue(th.q.pc) {
      hide Q.StepLocal, Q.Step, Q.StepPlace, InLoop, LoopTop;
      LoopLocalBack(q, th.q);
    } else {
      OutsideLoop(fl, q, th, lab);
    }
  }

  lemma {:induction false} LoopBegan(s: System, labels: seq<Label>, i: nat, t: Tid) returns (j: nat)
    requires i <= |labels| && (t in s.threads ==> s.threads[t].q.pc == Q.Idle)
    requires t in Before(s, labels, i).threads && InLoop(Before(s, labels, i).threads[t].q.pc)
    ensures LoopSince(s, labels, i, t, j)
    ensures Before(s, labels, i).threads[t].q.mark == Before(s, labels, j).q.commits
  {
    NothingBefore(s, labels);
    hide Run, Before, Act;
    assert i > 0;
    RunStep(s, labels, i - 1);
    var s' := Before(s, labels, i - 1);
    if labels[i - 1].t == t {
      LoopBack(s'.fl, s'.q, s'.threads[t], labels[i - 1]);
    }
    if labels[i - 1].t == t && LoopTop(s'.threads[t].q.pc) {
      j := i - 1;
    } else {
      j := LoopBegan(s, labels, i - 1, t);
    }
  }

  /** In every schedule: if the next step sends a thread back to the head of its loop, then
      some swap has succeeded since the step `j` with which the thread began the pass. */
  lemma LockFree(s: System, n: nat, labels: seq<Label>, i: nat) returns (j: nat)
    requires Init(s, n) && i < |labels|
    requires var s1, t := Before(s, labels, i), labels[i].t;
      && t in s1.threads && InLoop(s1.threads[t].q.pc) && LoopTop(Next(s1, labels[i]).threads[t].q.pc)
    ensures LoopSince(s, labels, i, labels[i].t, j)
    ensures Before(s, labels, i + 1).q.commits > Before(s, labels, j).q.commits
  {
    InitInv(s, n);
    var t := labels[i].t;
    assert t in s.threads ==> s.threads[t].q.pc == Q.Idle;
    assert AllWatched(s);
    hide Init, Inv, Before;
    RunKeepsInv(s, labels, i);
    RunKeepsWatched(s, labels, i);
    RunStep(s, labels, i);
    var s1 := Before(s, labels, i);
    KnowsOf(s1, t);
    hide Q.DeqKnows, Q.Owns, Watched, LoopSince;
    j := LoopBegan(s, labels, i, t);
    hide InLoop, LoopTop;
    FailedPass(s1, labels[i]);
  }

  lemma FailedPass(s: System, lab: Label)
    requires AllWatched(s) && lab.t in s.threads && Q.EnqKnows(s.q, s.threads[lab.t].q)
    requires InLoop(s.threads[lab.t].q.pc) && LoopTop(Next(s, lab).threads[lab.t].q.pc)
    ensures Next(s, lab).q.commits > s.threads[lab.t].q.mark
  {
    hide Q.Step, Q.StepLocal, Watched;
    RetryStep(s.q, s.fl.place, s.threads[lab.t].q);
  }

  // -------------------------------------------------------------------- the freelist

  /** After reading `top`, up to and including the swap. */
  predicate Swapping(pc: F.Pc) {
    pc in {F.PopPtr, F.PopNextPtr, F.PopNextCtr, F.PopSwap, F.PushTopCtr, F.PushNextPtr, F.PushNextCtr, F.PushSwap}
  }

  /** Steps that look at `top`: the first read, and a swap that fails and reloads. */
  predicate Looking(pc: F.Pc) {
    pc in {F.PopCtr, F.PopSwap, F.PushTopPtr, F.PushSwap}
  }

  predicate InFreelist(th: Thread) {
    th.q.pc == Q.Acquire || th.q.pc == Q.Release
  }

  /** Thread `t` looked at `top` with step `j` and has been in the same pass ever since. */
  ghost predicate SwapSince(s: System, labels: seq<Label>, i: nat, t: Tid, j: nat)
    requires i <= |labels|
  {
    && j < i && labels[j].t == t
    && t in Before(s, labels, j).threads && Looking(Before(s, labels, j).threads[t].f.pc)
    && forall k | j < k <= i ::
        t in Before(s, labels, k).threads && InFreelist(Before(s, labels, k).threads[t])
        && Swapping(Before(s, labels, k).threads[t].f.pc)
  }

  lemma SwapBack(fl: F.Freelist, q: Q.Queue, th: Thread, lab: Label)
    requires Swapping(Act(fl, q, th, lab).th.f.pc) && Nested(th)
    ensures InFreelist(th)
    ensures if Looking(th.f.pc) then Act(fl, q, th, lab).th.f.mark == fl.commits
            else Swapping(th.f.pc) && Act(fl, q, th, lab).th.f.mark == th.f.mark
  {
  }

  lemma NestedOf(s: System, t: Tid)
    requires Inv(s) && t in s.threads
    ensures Nested(s.threads[t])
    ensures Swapping(s.threads[t].f.pc) ==> InFreelist(s.threads[t])
  {
    assert ThreadInv(s.fl, s.q, s.threads[t], t);
    hide F.Valid, Q.Valid, HeldInv, Q.EnqKnows, Q.DeqKnows, Q.Owns, F.Knows;
  }

  lemma {:induction false} SwapBegan(s: System, labels: seq<Label>, i: nat, t: Tid) returns (j: nat)
    requires Inv(s) && i <= |labels| && (t in s.threads ==> s.threads[t].f.pc == F.Done)
    requires t in Before(s, labels, i).threads && Swapping(Before(s, labels, i).threads[t].f.pc)
    ensures SwapSince(s, labels, i, t, j)
    ensures Before(s, labels, i).threads[t].f.mark == Before(s, labels, j).fl.commits
  {
    NothingBefore(s, labels);
    hide Run, Before, Act, Inv;
    assert i > 0;
    RunStep(s, labels, i - 1);
    RunKeepsInv(s, labels, i - 1);
    RunKeepsInv(s, labels, i);
    NestedOf(Before(s, labels, i), t);
    var s' := Before(s, labels, i - 1);
    NestedOf(s', t);
    if labels[i - 1].t == t {
      SwapBack(s'.fl, s'.q, s'.threads[t], labels[i - 1]);
    }
    if labels[i - 1].t == t && Looking(s'.threads[t].f.pc) {
      j := i - 1;
    } else {
      j := SwapBegan(s, labels, i - 1, t);
    }
  }

  /** In every schedule: if the next step is a swap on the freelist's `top` that fails, then
      some swap on it has succeeded since the step `j` with which the thread last looked. */
  lemma FreelistLockFree(s: System, n: nat, labels: seq<Label>, i: nat) returns (j: nat)
    requires Init(s, n) && i < |labels|
    requires var s1, t := Before(s, labels, i), labels[i].t;
      && t in s1.threads && s1.threads[t].f.pc in {F.PopSwap, F.PushSwap} && s1.fl.top != s1.threads[t].f.top
    ensures SwapSince(s, labels, i, labels[i].t, j)
    ensures Before(s, labels, i).fl.commits > Before(s, labels, j).fl.commits
  {
    InitInv(s, n);
    var t := labels[i].t;
    assert t in s.threads ==> s.threads[t].f.pc == F.Done;
    hide Init, Inv, Before;
    RunKeepsInv(s, labels, i);
    KnowsOf(Before(s, labels, i), t);
    hide SwapSince, Q.EnqKnows, Q.DeqKnows, Q.Owns, F.Knows;
    FailedSwap(Before(s, labels, i).fl, Before(s, labels, i).threads[t].f, t);
    j := SwapBegan(s, labels, i, t);
  }

  lemma FailedSwap(fl: F.Freelist, fr: F.Frame, t: Tid)
    requires F.Knows(fl, fr, t) && fr.pc in {F.PopSwap, F.PushSwap} && fl.top != fr.top
    ensures fl.commits > fr.mark
  {
  }
}
