/** The queue is not first-in first-out under every schedule: queue_internal_queue reads
    the next pair one word at a time, and a link by another thread between the two reads
    can leave it with a value that re-initialisation of the node briefly re-creates.  This
    module exhibits the schedule, from every initial state with two threads and at least
    two elements. */
module TornRead {
  import opened Words
  import opened Machine
  import opened MachineInvariant
  import opened MachineOrder
  import opened Fifo
  import F = Freelist
  import Q = Queue
  import I = QueueInvariant

  // ------------------------------------------------------ one thread, many steps

  function Burst(e: Effect, lab: Label, n: nat): Effect
    decreases n
  {
    if n == 0 then e else Burst(Act(e.fl, e.q, e.th, lab), lab, n - 1)
  }

  lemma {:induction false} BurstAdd(e: Effect, lab: Label, m: nat, n: nat)
    ensures Burst(e, lab, m + n) == Burst(Burst(e, lab, m), lab, n)
    decreases m
  {
    hide Act;
    if m > 0 {
      BurstAdd(Act(e.fl, e.q, e.th, lab), lab, m - 1, n);
    }
  }

  lemma {:induction false} RunAdd(s: System, a: seq<Label>, b: seq<Label>)
    ensures Run(s, a + b) == Run(Run(s, a), b)
    decreases |b|
  {
    hide Next;
    if b == [] {
      assert a + b == a;
    } else {
      RunAdd(s, a, b[..|b| - 1]);
      assert (a + b)[..|a + b| - 1] == a + b[..|b| - 1];
    }
  }

  function Part(s: System, t: Tid): Effect
    requires t in s.threads
  {
    Effect(s.fl, s.q, s.threads[t])
  }

  function Whole(s: System, t: Tid, e: Effect): System {
    System(e.fl, e.q, s.threads[t := e.th])
  }

  function Repeat(lab: Label, n: nat): seq<Label> {
    if n == 0 then [] else [lab] + Repeat(lab, n - 1)
  }

  lemma {:induction false} BurstIsRun(s: System, lab: Label, n: nat)
    requires lab.t in s.threads
    ensures Run(s, Repeat(lab, n)) == Whole(s, lab.t, Burst(Part(s, lab.t), lab, n))
    decreases n
  {
    hide Act;
    if n == 0 {
      assert s.threads[lab.t := s.threads[lab.t]] == s.threads;
    } else {
      var s1 := Next(s, lab);
      assert Run(s, [lab]) == s1 by {
        assert [lab][..0] == [];
      }
      RunAdd(s, [lab], Repeat(lab, n - 1));
      BurstIsRun(s1, lab, n - 1);
      assert s1.threads[lab.t := Burst(Part(s1, lab.t), lab, n - 1).th]
          == s.threads[lab.t := Burst(Part(s1, lab.t), lab, n - 1).th];
    }
  }

  // -------------------------------------------------------- calls that run alone

  /** A whole freelist_pop of an unchanged, non-empty freelist. */
  lemma PopAlone(e: Effect, lab: Label)
    requires e.th.q.pc == Q.Acquire && e.th.f == F.PopCall() && e.fl.top.ptr != NULL
    ensures var p := e.fl.top.ptr; var below := F.Load(e.fl.next, p);
      Burst(e, lab, 6) == Effect(
        Popped(e.fl, lab.t),
        e.q,
        Thread(e.th.q.(pc := Q.InitDraw, elem := p), F.Frame(F.Done, p, e.fl.top, below, 0, e.fl.commits)))
  {
    var fl := e.fl;
    var p, below := fl.top.ptr, F.Load(fl.next, fl.top.ptr);
    var f1 := F.StepFrame(fl, e.th.f);
    var f2 := F.StepFrame(fl, f1);
    var f3 := F.StepFrame(fl, f2);
    var f4 := F.StepFrame(fl, f3);
    assert f4 == F.Frame(F.PopSwap, NULL, fl.top, below, 0, fl.commits);
    var e1, e2 := e.(th := e.th.(f := f1)), e.(th := e.th.(f := f2));
    var e3, e4 := e.(th := e.th.(f := f3)), e.(th := e.th.(f := f4));
    assert Act(e.fl, e.q, e.th, lab) == e1;
    assert Act(e1.fl, e1.q, e1.th, lab) == e2;
    assert Act(e2.fl, e2.q, e2.th, lab) == e3;
    assert Act(e3.fl, e3.q, e3.th, lab) == e4;
    var e5 := Act(e4.fl, e4.q, e4.th, lab);
    var e6 := Act(e5.fl, e5.q, e5.th, lab);
    assert e6 == Effect(
        Popped(e.fl, lab.t),
        e.q,
        Thread(e.th.q.(pc := Q.InitDraw, elem := p), F.Frame(F.Done, p, e.fl.top, below, 0, e.fl.commits)));
    hide Act;
    assert Burst(e, lab, 6) == Burst(e1, lab, 5) == Burst(e2, lab, 4) == Burst(e3, lab, 3);
    assert Burst(e3, lab, 3) == Burst(e4, lab, 2) == Burst(e5, lab, 1) == e6;
  }

  /** The freelist after an element has been popped by thread `t`. */
  function Popped(fl: F.Freelist, t: Tid): F.Freelist {
    fl.(top := F.Load(fl.next, fl.top.ptr), stack := F.Rest(fl.stack), commits := fl.commits + 1,
        place := fl.place[fl.top.ptr := Held(t)])
  }

  /** Starting an enqueue alone: the top of the freelist is acquired. */
  lemma AcquireAlone(e: Effect, lab: Label)
    requires e.th.q.pc == Q.Idle && lab.op == Q.Enqueue && e.fl.top.ptr != NULL
    ensures var e' := Burst(e, lab, 7);
      && e'.fl == Popped(e.fl, lab.t) && e'.q == e.q && e'.th.f.pc == F.Done
      && e'.th.q == e.th.q.(pc := Q.InitDraw, op := lab.op, value := lab.value, elem := e.fl.top.ptr)
  {
    var e1 := Act(e.fl, e.q, e.th, lab);
    PopAlone(e1, lab);
    hide Act;
    assert Burst(e, lab, 7) == Burst(e1, lab, 6);
  }

  /** The first two steps of re-initialisation. */
  lemma NullAlone(e: Effect, lab: Label)
    requires e.th.q.pc == Q.InitDraw
    ensures var e' := Burst(e, lab, 2); var x := e.th.q.elem; var n := Q.At(e.q.heap, x);
      && e'.fl == e.fl && e'.q == Q.SetNode(e.q.(aba := e.q.aba + 1), x, n.(next := n.next.(ptr := NULL)))
      && e'.th == e.th.(q := e.th.q.(pc := Q.InitNextDraw))
  {
    FirstDraw(e, lab);
    hide Act;
    var e1 := Act(e.fl, e.q, e.th, lab);
    NullOnly(e1, lab);
    var e2 := Act(e1.fl, e1.q, e1.th, lab);
    assert Burst(e, lab, 2) == Burst(e1, lab, 1) == e2;
  }

  lemma FirstDraw(e: Effect, lab: Label)
    requires e.th.q.pc == Q.InitDraw
    ensures Act(e.fl, e.q, e.th, lab)
      == e.(q := e.q.(aba := e.q.aba + 1), th := e.th.(q := e.th.q.(pc := Q.InitNextPtr)))
  {
  }

  lemma NullOnly(e: Effect, lab: Label)
    requires e.th.q.pc == Q.InitNextPtr
    ensures var x := e.th.q.elem; var n := Q.At(e.q.heap, x);
      Act(e.fl, e.q, e.th, lab)
      == e.(q := Q.SetNode(e.q, x, n.(next := n.next.(ptr := NULL))), th := e.th.(q := e.th.q.(pc := Q.InitNextDraw)))
  {
  }

  /** The other four change nothing but the element. */
  lemma LoadAlone(e: Effect, lab: Label)
    requires e.th.q.pc == Q.InitNextDraw
    ensures var e' := Burst(e, lab, 4); var x := e.th.q.elem;
      && e'.fl == e.fl && e'.th == e.th.(q := e.th.q.(pc := Q.EnqPtr, draw := e.q.aba + 1))
      && x in e'.q.heap && e'.q == Q.SetNode(e.q.(aba := e.q.aba + 1), x, e'.q.heap[x])
  {
    var x := e.th.q.elem;
    DrawAlone(e, lab);
    hide Act;
    var e1 := Act(e.fl, e.q, e.th, lab);
    WriteAlone(e1, lab);
    var e2 := Act(e1.fl, e1.q, e1.th, lab);
    WriteAlone(e2, lab);
    var e3 := Act(e2.fl, e2.q, e2.th, lab);
    WriteAlone(e3, lab);
    var e4 := Act(e3.fl, e3.q, e3.th, lab);
    assert Burst(e, lab, 4) == Burst(e1, lab, 3) == Burst(e2, lab, 2) == Burst(e3, lab, 1) == e4;
  }

  lemma DrawAlone(e: Effect, lab: Label)
    requires e.th.q.pc == Q.InitNextDraw
    ensures Act(e.fl, e.q, e.th, lab)
      == e.(q := e.q.(aba := e.q.aba + 1), th := e.th.(q := e.th.q.(pc := Q.InitNextCtr, draw := e.q.aba + 1)))
  {
  }

  lemma WriteAlone(e: Effect, lab: Label)
    requires e.th.q.pc in {Q.InitNextCtr, Q.InitFe, Q.InitData}
    ensures var e' := Act(e.fl, e.q, e.th, lab); var x := e.th.q.elem;
      && e'.fl == e.fl && x in e'.q.heap && e'.q == Q.SetNode(e.q, x, e'.q.heap[x])
      && e'.th == e.th.(q := e.th.q.(pc := if e.th.q.pc == Q.InitNextCtr then Q.InitFe
                                           else if e.th.q.pc == Q.InitFe then Q.InitData else Q.EnqPtr))
  {
  }

  /** Steps that only read. */
  predicate Reads(pc: Q.Pc) {
    || pc in {Q.EnqPtr, Q.EnqCtr, Q.EnqNextPtr, Q.EnqNextCtr, Q.EnqCheckPtr, Q.EnqCheckCtr}
    || pc in {Q.DeqPtr, Q.DeqCtr, Q.DeqEnqPtr, Q.DeqEnqCtr, Q.DeqNextPtr, Q.DeqNextCtr, Q.DeqCheckPtr, Q.DeqCheckCtr}
    || pc == Q.DeqData
  }

  function With(e: Effect, l: Q.Local): Effect {
    e.(th := e.th.(q := l))
  }

  lemma ReadStep(e: Effect, lab: Label)
    requires Reads(e.th.q.pc)
    ensures Act(e.fl, e.q, e.th, lab) == With(e, Q.StepLocal(e.q, e.th.q))
  {
    I.ReadsOnly(e.q, e.fl.place, e.th.q);
    hide Q.Step, Q.StepPlace, Q.StepLocal;
  }

  lemma BurstOne(e: Effect, lab: Label, n: nat)
    requires n > 0
    ensures Burst(e, lab, n) == Burst(Act(e.fl, e.q, e.th, lab), lab, n - 1)
  {
    hide Act;
  }

  /** The first of `n` steps is a read. */
  lemma BurstRead(e: Effect, lab: Label, n: nat)
    requires n > 0 && Reads(e.th.q.pc)
    ensures Burst(e, lab, n) == Burst(With(e, Q.StepLocal(e.q, e.th.q)), lab, n - 1)
  {
    ReadStep(e, lab);
    hide Act, Q.StepLocal;
  }

  /** Three reads. */
  lemma BurstReads3(e: Effect, lab: Label, l1: Q.Local, l2: Q.Local, l3: Q.Local)
    requires Reads(e.th.q.pc) && Reads(l1.pc) && Reads(l2.pc)
    requires l1 == Q.StepLocal(e.q, e.th.q) && l2 == Q.StepLocal(e.q, l1) && l3 == Q.StepLocal(e.q, l2)
    ensures Burst(e, lab, 3) == With(e, l3)
  {
    hide Act, Q.StepLocal, Reads;
    BurstRead(e, lab, 3);
    BurstRead(With(e, l1), lab, 2);
    BurstRead(With(e, l2), lab, 1);
  }

  lemma BurstReads4(e: Effect, lab: Label, l1: Q.Local, l2: Q.Local, l3: Q.Local, l4: Q.Local)
    requires Reads(e.th.q.pc) && Reads(l1.pc) && Reads(l2.pc) && Reads(l3.pc)
    requires l1 == Q.StepLocal(e.q, e.th.q) && l2 == Q.StepLocal(e.q, l1) && l3 == Q.StepLocal(e.q, l2)
    requires l4 == Q.StepLocal(e.q, l3)
    ensures Burst(e, lab, 4) == With(e, l4)
  {
    hide Act, Q.StepLocal, Reads;
    BurstRead(e, lab, 4);
    BurstReads3(With(e, l1), lab, l2, l3, l4);
  }

  lemma ReadTail(q: Q.Queue, l: Q.Local)
    requires l.pc == Q.EnqPtr
    ensures var l1 := Q.StepLocal(q, l); var l2 := Q.StepLocal(q, l1);
      l1.pc == Q.EnqCtr && l2.pc == Q.EnqNextPtr && l2.enq == q.enq && l2.elem == l.elem
  {
  }

  lemma ReadPointerWord(q: Q.Queue, l: Q.Local)
    requires l.pc == Q.EnqNextPtr
    ensures var l1 := Q.StepLocal(q, l); var next := Q.At(q.heap, l.enq.ptr).next;
      l1.pc == Q.EnqNextCtr && l1.enq == l.enq && l1.elem == l.elem && l1.next.ptr == next.ptr && l1.seen == next.ctr
  {
  }

  /** Reading `enq` and the pointer word of its node's next. */
  lemma ReadAlone(e: Effect, lab: Label)
    requires e.th.q.pc == Q.EnqPtr
    ensures var e' := Burst(e, lab, 3); var next := Q.At(e.q.heap, e.q.enq.ptr).next;
      && e'.fl == e.fl && e'.q == e.q && e'.th.f == e.th.f
      && e'.th.q.pc == Q.EnqNextCtr && e'.th.q.elem == e.th.q.elem && e'.th.q.enq == e.q.enq
      && e'.th.q.next.ptr == next.ptr && e'.th.q.seen == next.ctr
  {
    hide Act, Burst, Q.StepLocal;
    var l1 := Q.StepLocal(e.q, e.th.q);
    var l2 := Q.StepLocal(e.q, l1);
    ReadTail(e.q, e.th.q);
    ReadPointerWord(e.q, l2);
    BurstReads3(e, lab, l1, l2, Q.StepLocal(e.q, l2));
  }

  /** Reading the counter word, and a recheck that passes. */
  lemma CheckAlone(e: Effect, lab: Label)
    requires e.th.q.pc == Q.EnqNextCtr && e.th.q.enq == e.q.enq && e.th.q.next.ptr == NULL
    ensures var e' := Burst(e, lab, 3);
      && e'.fl == e.fl && e'.q == e.q
      && e'.th == e.th.(q := e.th.q.(pc := Q.EnqLink, next := Pair(NULL, Q.At(e.q.heap, e.q.enq.ptr).next.ctr)))
  {
    var l1 := Q.StepLocal(e.q, e.th.q);
    var l2 := Q.StepLocal(e.q, l1);
    var l3 := Q.StepLocal(e.q, l2);
    assert l1.pc == Q.EnqCheckPtr && l2.pc == Q.EnqCheckCtr;
    hide Act, Burst;
    BurstReads3(e, lab, l1, l2, l3);
  }

  /** A link on a live node. */
  lemma LinkAlone(e: Effect, lab: Label)
    requires e.th.q.pc == Q.EnqLink && Q.LinkFires(e.q, e.th.q) && Q.IsLive(e.fl.place, e.th.q.enq.ptr)
    requires e.th.q.elem != e.th.q.enq.ptr
    ensures var e' := Burst(e, lab, 1); var x, l := e.th.q.enq.ptr, e.th.q; var n := Q.At(e.q.heap, x);
      && e'.fl == e.fl.(place := e.fl.place[l.elem := Live(|e.q.nodes|)])
      && e'.q.heap == e.q.heap[x := n.(next := Pair(l.elem, l.next.ctr + STRIDE))]
      && e'.q.enq == e.q.enq && e'.q.deq == e.q.deq
      && e'.th == e.th.(q := l.(pc := Q.EnqSwing))
  {
    var e1 := Act(e.fl, e.q, e.th, lab);
    assert Burst(e, lab, 1) == Burst(e1, lab, 0) == e1;
  }

  lemma SwingOnly(e: Effect, lab: Label)
    requires e.th.q.pc == Q.EnqSwing && e.q.enq == e.th.q.enq
    ensures var e' := Act(e.fl, e.q, e.th, lab);
      && e'.q.heap == e.q.heap && e'.q.deq == e.q.deq && e'.q.enq.ptr == e.th.q.elem
      && e'.fl == e.fl.(place := e'.fl.place) && e'.th.f == e.th.f && e'.th.q.pc == Q.Return
  {
  }

  lemma ReturnOnly(e: Effect, lab: Label)
    requires e.th.q.pc == Q.Return
    ensures Act(e.fl, e.q, e.th, lab) == e.(th := e.th.(q := e.th.q.(pc := Q.Idle)))
  {
  }

  /** The rest of an enqueue, up to the next call. */
  lemma SwingAlone(e: Effect, lab: Label)
    requires e.th.q.pc == Q.EnqSwing && e.q.enq == e.th.q.enq
    ensures var e' := Burst(e, lab, 2);
      && e'.fl == e.fl.(place := e'.fl.place) && e'.q.heap == e.q.heap && e'.q.deq == e.q.deq
      && e'.q.enq.ptr == e.th.q.elem && e'.th.q.pc == Q.Idle && e'.th.f == e.th.f
  {
    SwingOnly(e, lab);
    hide Act;
    var e1 := Act(e.fl, e.q, e.th, lab);
    ReturnOnly(e1, lab);
    var e2 := Act(e1.fl, e1.q, e1.th, lab);
    assert Burst(e, lab, 2) == Burst(e1, lab, 1) == e2;
  }

  lemma BeginDequeue(e: Effect, lab: Label)
    requires e.th.q.pc == Q.Idle && lab.op == Q.Dequeue
    ensures Act(e.fl, e.q, e.th, lab) == With(e, e.th.q.(pc := Q.DeqPtr, op := Q.Dequeue))
  {
  }

  /** A dequeue that finds `enq` past the dummy, up to taking the dummy out. */
  lemma DequeueAlone(e: Effect, lab: Label)
    requires e.th.q.pc == Q.Idle && lab.op == Q.Dequeue && e.q.enq.ptr != e.q.deq.ptr
    ensures var e' := Burst(e, lab, 11);
      && e'.fl == e.fl.(place := e.fl.place[e.q.deq.ptr := Held(lab.t)]) && e'.q.heap == e.q.heap
      && e'.th.q.pc == Q.DeqFe && e'.th.q.deq == e.q.deq && e'.th.f == e.th.f
  {
    hide Act, Burst;
    BeginDequeue(e, lab);
    var e1 := Act(e.fl, e.q, e.th, lab);
    BurstOne(e, lab, 11);
    DeqReadsHead(e1, lab);
    DeqReadsNext(Burst(e1, lab, 4), lab);
    BurstAdd(e1, lab, 4, 4);
    TakeAlone(Burst(e1, lab, 8), lab);
    BurstAdd(e1, lab, 8, 2);
  }

  lemma SwapOnly(e: Effect, lab: Label)
    requires e.th.q.pc == Q.DeqSwap && e.th.q.deq == e.q.deq
    ensures var e' := Act(e.fl, e.q, e.th, lab);
      && e'.fl == e.fl.(place := e.fl.place[e.q.deq.ptr := Held(lab.t)]) && e'.q.heap == e.q.heap
      && e'.th.q.pc == Q.DeqFe && e'.th.q.deq == e.q.deq && e'.th.f == e.th.f
  {
  }

  lemma TakeAlone(e: Effect, lab: Label)
    requires e.th.q.pc == Q.DeqData && e.th.q.deq == e.q.deq
    ensures var e' := Burst(e, lab, 2);
      && e'.fl == e.fl.(place := e.fl.place[e.q.deq.ptr := Held(lab.t)]) && e'.q.heap == e.q.heap
      && e'.th.q.pc == Q.DeqFe && e'.th.q.deq == e.q.deq && e'.th.f == e.th.f
  {
    var l1 := Q.StepLocal(e.q, e.th.q);
    assert l1.pc == Q.DeqSwap && l1.deq == e.q.deq;
    hide Act, Q.StepLocal;
    BurstRead(e, lab, 2);
    var e1 := With(e, l1);
    SwapOnly(e1, lab);
    assert Burst(e1, lab, 1) == Act(e1.fl, e1.q, e1.th, lab);
  }

  lemma ReadDeq(q: Q.Queue, l: Q.Local)
    requires l.pc == Q.DeqPtr
    ensures var l1 := Q.StepLocal(q, l); var l2 := Q.StepLocal(q, l1);
      l1.pc == Q.DeqCtr && l2.pc == Q.DeqEnqPtr && l2.deq == q.deq
  {
  }

  lemma ReadEnq(q: Q.Queue, l: Q.Local)
    requires l.pc == Q.DeqEnqPtr
    ensures var l1 := Q.StepLocal(q, l); var l2 := Q.StepLocal(q, l1);
      l1.pc == Q.DeqEnqCtr && l2.pc == Q.DeqNextPtr && l2.deq == l.deq && l2.enq == q.enq
  {
  }

  lemma ReadNext(q: Q.Queue, l: Q.Local)
    requires l.pc == Q.DeqNextPtr
    ensures var l1 := Q.StepLocal(q, l); var l2 := Q.StepLocal(q, l1);
      l1.pc == Q.DeqNextCtr && l2.pc == Q.DeqCheckPtr && l2.deq == l.deq && l2.enq == l.enq
  {
  }

  lemma CheckDeq(q: Q.Queue, l: Q.Local)
    requires l.pc == Q.DeqCheckPtr && l.deq == q.deq && l.enq == q.enq && q.enq.ptr != q.deq.ptr
    ensures var l1 := Q.StepLocal(q, l); var l2 := Q.StepLocal(q, l1);
      l1.pc == Q.DeqCheckCtr && l2.pc == Q.DeqData && l2.deq == l.deq
  {
  }

  lemma DeqReadsHead(e: Effect, lab: Label)
    requires e.th.q.pc == Q.DeqPtr
    ensures var e' := Burst(e, lab, 4);
      && e'.fl == e.fl && e'.q == e.q && e'.th.f == e.th.f
      && e'.th.q.pc == Q.DeqNextPtr && e'.th.q.deq == e.q.deq && e'.th.q.enq == e.q.enq
  {
    hide Act, Burst, Q.StepLocal;
    var l1 := Q.StepLocal(e.q, e.th.q);
    var l2 := Q.StepLocal(e.q, l1);
    var l3 := Q.StepLocal(e.q, l2);
    ReadDeq(e.q, e.th.q);
    ReadEnq(e.q, l2);
    BurstReads4(e, lab, l1, l2, l3, Q.StepLocal(e.q, l3));
  }

  lemma DeqReadsNext(e: Effect, lab: Label)
    requires e.th.q.pc == Q.DeqNextPtr && e.th.q.deq == e.q.deq && e.th.q.enq == e.q.enq && e.q.enq.ptr != e.q.deq.ptr
    ensures var e' := Burst(e, lab, 4);
      && e'.fl == e.fl && e'.q == e.q && e'.th.f == e.th.f && e'.th.q.pc == Q.DeqData && e'.th.q.deq == e.q.deq
  {
    hide Act, Burst, Q.StepLocal;
    var l1 := Q.StepLocal(e.q, e.th.q);
    var l2 := Q.StepLocal(e.q, l1);
    var l3 := Q.StepLocal(e.q, l2);
    ReadNext(e.q, e.th.q);
    CheckDeq(e.q, l2);
    BurstReads4(e, lab, l1, l2, l3, Q.StepLocal(e.q, l3));
  }

  lemma FeAlone(e: Effect, lab: Label)
    requires e.th.q.pc == Q.DeqFe
    ensures var e' := Act(e.fl, e.q, e.th, lab);
      && e'.q == e.q && e'.th.q.pc == Q.Release && e'.th.f == F.PushCall(Q.At(e.q.heap, e.th.q.deq.ptr).fe)
  {
  }

  lemma DoneAlone(e: Effect, lab: Label)
    requires e.th.q.pc == Q.Release && e.th.f.pc == F.Done
    ensures var e' := Act(e.fl, e.q, e.th, lab); e'.fl == e.fl && e'.q == e.q && e'.th.q.pc == Q.Return
  {
  }

  /** Giving the old dummy back, up to the next call. */
  lemma ReleaseAlone(e: Effect, lab: Label)
    requires e.th.q.pc == Q.DeqFe
    ensures var e' := Burst(e, lab, 9);
      && e'.fl.top.ptr == Q.At(e.q.heap, e.th.q.deq.ptr).fe && e'.q == e.q && e'.th.q.pc == Q.Idle
  {
    FeAlone(e, lab);
    hide Act;
    var e1 := Act(e.fl, e.q, e.th, lab);
    PushAlone(e1, lab);
    var e7 := Burst(e1, lab, 6);
    DoneAlone(e7, lab);
    var e8 := Act(e7.fl, e7.q, e7.th, lab);
    ReturnOnly(e8, lab);
    var e9 := Act(e8.fl, e8.q, e8.th, lab);
    BurstAdd(e1, lab, 6, 2);
    assert Burst(e7, lab, 2) == Burst(e8, lab, 1) == e9;
    assert Burst(e, lab, 9) == Burst(e1, lab, 8);
  }

  lemma FreeStep(e: Effect, lab: Label)
    requires e.th.q.pc == Q.Release && e.th.f.pc != F.Done
    ensures Act(e.fl, e.q, e.th, lab) ==
      Effect(F.StepShared(e.fl, e.th.f, lab.t), e.q, e.th.(f := F.StepFrame(e.fl, e.th.f)))
  {
  }

  lemma PushAlone(e: Effect, lab: Label)
    requires e.th.q.pc == Q.Release && e.th.f.pc == F.PushDraw
    ensures var e' := Burst(e, lab, 6);
      && e'.fl.top.ptr == e.th.f.elem && e'.q == e.q && e'.th.q == e.th.q && e'.th.f.pc == F.Done
  {
    FreeStep(e, lab);
    var e1 := Act(e.fl, e.q, e.th, lab);
    FreeStep(e1, lab);
    var e2 := Act(e1.fl, e1.q, e1.th, lab);
    FreeStep(e2, lab);
    var e3 := Act(e2.fl, e2.q, e2.th, lab);
    assert e3.th.f.top == e3.fl.top && e3.th.f.pc == F.PushNextPtr && e3.th.f.elem == e.th.f.elem;
    FreeStep(e3, lab);
    var e4 := Act(e3.fl, e3.q, e3.th, lab);
    FreeStep(e4, lab);
    var e5 := Act(e4.fl, e4.q, e4.th, lab);
    assert e5.th.f.top == e5.fl.top && e5.th.f.pc == F.PushSwap && e5.th.f.elem == e.th.f.elem;
    FreeStep(e5, lab);
    var e6 := Act(e5.fl, e5.q, e5.th, lab);
    assert e6.fl.top.ptr == e.th.f.elem && e6.th.f.pc == F.Done;
    hide Act, F.StepShared, F.StepFrame;
    assert Burst(e, lab, 6) == Burst(e1, lab, 5) == Burst(e2, lab, 4) == Burst(e3, lab, 3);
    assert Burst(e3, lab, 3) == Burst(e4, lab, 2) == Burst(e5, lab, 1) == e6;
  }

  // ------------------------------------------------------------ the schedule

  function Enq(t: Tid): Label { Label(t, Q.Enqueue, NULL, NULL, Q.JUNK) }

  function Deq(t: Tid): Label { Label(t, Q.Dequeue, NULL, NULL, Q.JUNK) }

  /** An enqueue that runs alone up to reading the pointer word of the next pair. */
  lemma ToPointerWord(e: Effect, lab: Label)
    requires e.th.q.pc == Q.Idle && lab.op == Q.Enqueue && e.fl.top.ptr != NULL
    requires e.q.enq.ptr in e.q.heap && e.fl.top.ptr != e.q.enq.ptr
    ensures var e' := Burst(e, lab, 16); var x := e.fl.top.ptr; var next := e.q.heap[e.q.enq.ptr].next;
      && e'.fl == Popped(e.fl, lab.t)
      && x in e'.q.heap && e'.q == Q.SetNode(e.q.(aba := e.q.aba + 2), x, e'.q.heap[x])
      && e'.th.f.pc == F.Done && e'.th.q.pc == Q.EnqNextCtr && e'.th.q.elem == x
      && e'.th.q.enq == e.q.enq && e'.th.q.next.ptr == next.ptr && e'.th.q.seen == next.ctr
  {
    hide Act, Burst;
    AcquireAlone(e, lab);
    var e7 := Burst(e, lab, 7);
    NullAlone(e7, lab);
    BurstAdd(e, lab, 7, 2);
    var e9 := Burst(e, lab, 9);
    LoadAlone(e9, lab);
    BurstAdd(e, lab, 9, 4);
    var e13 := Burst(e, lab, 13);
    ReadAlone(e13, lab);
    BurstAdd(e, lab, 13, 3);
  }

  /** Both threads exist; the dummy `x` is where the queue begins and ends. */
  ghost predicate Scene(s: System, a: Tid, b: Tid, x: nat) {
    a != b && a in s.threads && b in s.threads && x in s.q.heap && s.q.deq.ptr == x
  }

  /** Thread `a` has read the pointer word: NULL. */
  ghost predicate Stage1(s: System, a: Tid, b: Tid, x: nat) {
    && Scene(s, a, b, x)
    && s.q.enq.ptr == x && s.q.heap[x].next == Pair(NULL, 2) && s.q.heap[x].fe == x
    && Q.IsLive(s.fl.place, x)
    && s.fl.top.ptr != NULL && s.fl.top.ptr != x
    && (var l := s.threads[a].q; l.pc == Q.EnqNextCtr && l.enq == s.q.enq && l.next.ptr == NULL)
    && s.threads[b].q.pc == Q.Idle
  }

  /** Thread `b` has linked its node behind the dummy, but not yet swung `enq`. */
  ghost predicate Stage2(s: System, a: Tid, b: Tid, x: nat) {
    && Scene(s, a, b, x)
    && s.q.enq.ptr == x && s.q.heap[x].next == Pair(s.threads[b].q.elem, 2 + STRIDE) && s.q.heap[x].fe == x
    && (var l := s.threads[a].q; l.pc == Q.EnqNextCtr && l.enq == s.q.enq && l.next.ptr == NULL)
    && (var l := s.threads[b].q; l.pc == Q.EnqSwing && l.enq == s.q.enq && l.elem != x && l.elem != NULL)
  }

  /** Thread `a` has passed its recheck with a torn pair. */
  ghost predicate Stage3(s: System, a: Tid, b: Tid, x: nat) {
    && Scene(s, a, b, x)
    && s.q.heap[x].next == Pair(s.threads[b].q.elem, 2 + STRIDE) && s.q.heap[x].fe == x
    && TornAt(s, a, x)
    && (var l := s.threads[b].q; l.pc == Q.EnqSwing && l.enq == s.q.enq && l.elem != x && l.elem != NULL)
  }

  ghost predicate TornAt(s: System, a: Tid, x: nat) {
    a in s.threads && s.threads[a].q.pc == Q.EnqLink
    && s.threads[a].q.enq.ptr == x && s.threads[a].q.next == Pair(NULL, 2 + STRIDE)
  }

  /** The dummy has been dequeued and pushed back on the freelist. */
  ghost predicate Stage4(s: System, a: Tid, b: Tid, x: nat) {
    && a != b && a in s.threads && b in s.threads && x in s.q.heap && x != NULL
    && s.q.heap[x].next.ctr == 2 + STRIDE && s.fl.top.ptr == x
    && TornAt(s, a, x) && s.threads[b].q.pc == Q.Idle
  }

  /** What a new queue, whose dummy is `x`, looks like to the schedule. */
  ghost predicate Opening(s: System, a: Tid, b: Tid, x: nat) {
    && Scene(s, a, b, x) && s.q.enq.ptr == x && s.q.heap[x] == Q.Node(Pair(NULL, 2), x, NULL)
    && Q.IsLive(s.fl.place, x) && s.fl.top.ptr !in {NULL, x} && F.Load(s.fl.next, s.fl.top.ptr).ptr !in {NULL, x}
    && s.threads[a].q.pc == Q.Idle && s.threads[b].q.pc == Q.Idle
  }

  lemma NewScene(s: System, n: nat, a: Tid, b: Tid)
    requires Init(s, n) && n >= 2 && a != b && a in s.threads && b in s.threads
    ensures Opening(s, a, b, n + 1)
  {
  }

  lemma ToStage1(s: System, a: Tid, b: Tid, x: nat)
    requires Opening(s, a, b, x)
    ensures Stage1(Run(s, Repeat(Enq(a), 16)), a, b, x)
  {
    hide Act, Burst, Run, Next;
    BurstIsRun(s, Enq(a), 16);
    ToPointerWord(Part(s, a), Enq(a));
  }

  /** An enqueue that runs alone up to its link. */
  lemma ToLink(e: Effect, lab: Label)
    requires e.th.q.pc == Q.Idle && lab.op == Q.Enqueue && e.fl.top.ptr != NULL
    requires e.q.enq.ptr in e.q.heap && e.fl.top.ptr != e.q.enq.ptr && e.q.heap[e.q.enq.ptr].next.ptr == NULL
    ensures var e' := Burst(e, lab, 19); var x, p := e.fl.top.ptr, e.q.enq.ptr;
      && e'.fl == Popped(e.fl, lab.t) && p in e'.q.heap && e'.q.heap[p] == e.q.heap[p]
      && e'.q.enq == e.q.enq && e'.q.deq == e.q.deq
      && e'.th.q.pc == Q.EnqLink && e'.th.q.elem == x && e'.th.q.enq == e.q.enq && e'.th.q.next == e.q.heap[p].next
  {
    hide Act, Burst;
    ToPointerWord(e, lab);
    CheckAlone(Burst(e, lab, 16), lab);
    BurstAdd(e, lab, 16, 3);
  }

  /** An enqueue that runs alone up to, and including, its link. */
  lemma ToSwing(e: Effect, lab: Label)
    requires e.th.q.pc == Q.Idle && lab.op == Q.Enqueue && e.fl.top.ptr != NULL
    requires e.q.enq.ptr in e.q.heap && e.fl.top.ptr != e.q.enq.ptr && e.q.heap[e.q.enq.ptr].next.ptr == NULL
    requires Q.IsLive(e.fl.place, e.q.enq.ptr)
    ensures var e' := Burst(e, lab, 20); var x, p := e.fl.top.ptr, e.q.enq.ptr;
      && p in e'.q.heap && e'.q.enq == e.q.enq && e'.q.deq == e.q.deq
      && e'.q.heap[p] == e.q.heap[p].(next := Pair(x, e.q.heap[p].next.ctr + STRIDE))
      && e'.th.q.pc == Q.EnqSwing && e'.th.q.elem == x && e'.th.q.enq == e.q.enq
  {
    hide Act, Burst;
    ToLink(e, lab);
    LinkAlone(Burst(e, lab, 19), lab);
    BurstAdd(e, lab, 19, 1);
  }

  lemma ToStage2(s: System, a: Tid, b: Tid, x: nat)
    requires Stage1(s, a, b, x)
    ensures Stage2(Run(s, Repeat(Enq(b), 20)), a, b, x)
  {
    hide Act, Run, Next, Burst;
    BurstIsRun(s, Enq(b), 20);
    ToSwing(Part(s, b), Enq(b));
  }

  lemma ToStage3(s: System, a: Tid, b: Tid, x: nat)
    requires Stage2(s, a, b, x)
    ensures Stage3(Run(s, Repeat(Enq(a), 3)), a, b, x)
  {
    hide Act, Run, Next, Burst, Repeat;
    BurstIsRun(s, Enq(a), 3);
    CheckAlone(Part(s, a), Enq(a));
  }

  /** Finishing an enqueue and running a whole dequeue, alone. */
  lemma ToNextCall(e: Effect, lab: Label)
    requires e.th.q.pc == Q.EnqSwing && e.q.enq == e.th.q.enq && lab.op == Q.Dequeue
    requires e.th.q.elem != e.q.deq.ptr
    ensures var e' := Burst(e, lab, 22);
      && e'.q.heap == e.q.heap && e'.fl.top.ptr == Q.At(e.q.heap, e.q.deq.ptr).fe && e'.th.q.pc == Q.Idle
  {
    hide Act, Burst;
    SwingAlone(e, lab);
    DequeueAlone(Burst(e, lab, 2), lab);
    BurstAdd(e, lab, 2, 11);
    ReleaseAlone(Burst(e, lab, 13), lab);
    BurstAdd(e, lab, 13, 9);
  }

  lemma ToStage4(s: System, a: Tid, b: Tid, x: nat)
    requires Stage3(s, a, b, x) && x != NULL
    ensures Stage4(Run(s, Repeat(Deq(b), 22)), a, b, x)
  {
    hide Act, Run, Next, Burst;
    BurstIsRun(s, Deq(b), 22);
    ToNextCall(Part(s, b), Deq(b));
  }

  lemma ToStray(s: System, a: Tid, b: Tid, x: nat)
    requires Stage4(s, a, b, x)
    ensures Stray(Run(s, Repeat(Enq(b), 9)), Enq(a))
  {
    BurstIsRun(s, Enq(b), 9);
    hide Act, Run, Next, Burst;
    var e := Part(s, b);
    AcquireAlone(e, Enq(b));
    NullAlone(Burst(e, Enq(b), 7), Enq(b));
    BurstAdd(e, Enq(b), 7, 2);
  }

  /** From every initial state with two threads and at least two elements there is a
      schedule that leads to a stray link. */
  lemma StrayIsReachable(s: System, n: nat, a: Tid, b: Tid) returns (labels: seq<Label>)
    requires Init(s, n) && n >= 2 && a != b && a in s.threads && b in s.threads
    ensures Stray(Run(s, labels), Enq(a))
  {
    hide Init, Opening, Stray, Run, Next, Stage1, Stage2, Stage3, Stage4, Repeat;
    var p1, p2, p3 := Repeat(Enq(a), 16), Repeat(Enq(b), 20), Repeat(Enq(a), 3);
    var p4, p5 := Repeat(Deq(b), 22), Repeat(Enq(b), 9);
    NewScene(s, n, a, b);
    ToStage1(s, a, b, n + 1);
    RunAdd(s, p1, p2);
    ToStage2(Run(s, p1), a, b, n + 1);
    RunAdd(s, p1 + p2, p3);
    ToStage3(Run(s, p1 + p2), a, b, n + 1);
    RunAdd(s, p1 + p2 + p3, p4);
    ToStage4(Run(s, p1 + p2 + p3), a, b, n + 1);
    RunAdd(s, p1 + p2 + p3 + p4, p5);
    ToStray(Run(s, p1 + p2 + p3 + p4), a, b, n + 1);
    labels := p1 + p2 + p3 + p4 + p5;
  }

  lemma StrayAtEnd(s: System, prefix: seq<Label>, lab: Label)
    requires Stray(Run(s, prefix), lab)
    ensures StrayAt(s, prefix + [lab], |prefix|)
  {
    hide Stray, Run;
    assert (prefix + [lab])[..|prefix|] == prefix;
  }

  /** Hence there is a schedule during which the queue is not first-in first-out. */
  lemma FifoCanFail(s: System, n: nat, a: Tid, b: Tid) returns (labels: seq<Label>, i: nat)
    requires Init(s, n) && n >= 2 && a != b && a in s.threads && b in s.threads
    ensures i <= |labels| && !IsFifo(Before(s, labels, i).q)
  {
    hide *;
    InitInv(s, n);
    InitOrder(s, n);
    var prefix := StrayIsReachable(s, n, a, b);
    labels := prefix + [Enq(a)];
    StrayAtEnd(s, prefix, Enq(a));
    var j := FirstStray(s, labels, |prefix|);
    FirstHit(s, labels, j);
    i := j + 1;
  }
}
