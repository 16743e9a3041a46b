/** What the answers of calls mean, in every schedule.  A call works with the arguments it was
    given; it takes effect with exactly one successful swap if it answers 1, and with none if
    it answers 0. */
module Answers {
  import opened Words
  import opened Machine
  import opened MachineInvariant
  import opened Fifo
  import opened Calls
  import F = Freelist
  import Q = Queue
  import L = Lifo

  // -------------------------------------------------------------- a call and its arguments

  predicate InCall(s: System, t: Tid) {
    t in s.threads && s.threads[t].q.pc != Q.Idle
  }

  /** Thread `t` began a call with step `j`, and has been in the same call ever since. */
  ghost predicate CallSince(s: System, labels: seq<Label>, i: nat, t: Tid, j: nat)
    requires i <= |labels|
  {
    && j < i && labels[j].t == t && HasThread(Before(s, labels, j), t, Q.Idle)
    && forall k | j < k <= i :: InCall(Before(s, labels, k), t)
  }

  /** Where a call of the operation can be. */
  predicate Fits(pc: Q.Pc, op: Q.Op) {
    match pc
    case Idle => false
    case Return => true
    case Acquire => op == Q.Enqueue
    case Create => op == Q.GuaranteedEnqueue
    case _ => if Enqueues(pc) then op != Q.Dequeue else op == Q.Dequeue
  }

  /** Initialising an element, and linking it. */
  predicate Enqueues(pc: Q.Pc) {
    || pc in {Q.InitDraw, Q.InitNextPtr, Q.InitNextDraw, Q.InitNextCtr, Q.InitFe, Q.InitData}
    || pc in {Q.EnqPtr, Q.EnqCtr, Q.EnqNextPtr, Q.EnqNextCtr, Q.EnqCheckPtr, Q.EnqCheckCtr}
    || pc in {Q.EnqLink, Q.EnqHelp, Q.EnqSwing}
  }

  /** The locals are those of the call that the label began. */
  predicate Serves(l: Q.Local, lab: Label) {
    && l.op == lab.op && Fits(l.pc, lab.op)
    && (lab.op != Q.Dequeue ==> l.value == lab.value)
    && (l.pc == Q.Return ==> l.rv <= 1 && (lab.op == Q.Dequeue && l.rv == 0 ==> l.value == NULL))
  }

  lemma EnqueueFits(q: Q.Queue, l: Q.Local)
    requires Enqueues(l.pc)
    ensures var pc := Q.StepLocal(q, l).pc; Enqueues(pc) || (pc == Q.Return && l.pc == Q.EnqSwing)
  {
  }

  lemma DequeueFits(q: Q.Queue, l: Q.Local)
    requires InQueue(l.pc) && !Enqueues(l.pc)
    ensures var pc := Q.StepLocal(q, l).pc; !Enqueues(pc) && pc !in {Q.Idle, Q.Acquire, Q.Create}
  {
  }

  lemma LocalFits(q: Q.Queue, l: Q.Local, op: Q.Op)
    requires Fits(l.pc, op) && InQueue(l.pc)
    ensures Fits(Q.StepLocal(q, l).pc, op)
  {
    hide Q.StepLocal, Enqueues;
    if Enqueues(l.pc) {
      EnqueueFits(q, l);
      NotEnqueues();
    } else {
      DequeueFits(q, l);
    }
  }

  lemma NotEnqueues()
    ensures !Enqueues(Q.Idle) && !Enqueues(Q.Return) && !Enqueues(Q.Acquire) && !Enqueues(Q.Create)
  {
  }

  lemma LocalAnswers(q: Q.Queue, l: Q.Local)
    requires InQueue(l.pc)
    ensures var l' := Q.StepLocal(q, l);
      && l'.op == l.op
      && (l'.value == l.value || l.pc == Q.DeqCheckCtr || l.pc == Q.DeqData)
      && (l'.pc == Q.Return ==> if l.pc == Q.EnqSwing then l'.rv == 1 else l'.rv == 0 && l'.value == NULL)
  {
  }

  lemma LocalServes(q: Q.Queue, l: Q.Local, call: Label)
    requires Serves(l, call) && InQueue(l.pc)
    ensures Serves(Q.StepLocal(q, l), call)
  {
    hide Q.StepLocal, InQueue;
    LocalFits(q, l, call.op);
    LocalAnswers(q, l);
  }

  lemma ActServes(fl: F.Freelist, q: Q.Queue, th: Thread, lab: Label, call: Label)
    requires Serves(th.q, call) && th.q.pc != Q.Return
    ensures Serves(Act(fl, q, th, lab).th.q, call)
  {
    if InQueue(th.q.pc) {
      hide Q.StepLocal, Q.Step, Q.StepPlace, Serves;
      LocalServes(q, th.q, call);
    } else {
      hide F.StepShared, F.StepFrame;
    }
  }

  lemma BeginServes(fl: F.Freelist, q: Q.Queue, th: Thread, lab: Label)
    requires th.q.pc == Q.Idle
    ensures Serves(Act(fl, q, th, lab).th.q, lab)
  {
  }

  lemma NextServes(s: System, lab: Label, t: Tid, call: Label)
    requires InCall(s, t) && InCall(Next(s, lab), t) && Serves(s.threads[t].q, call)
    ensures Serves(Next(s, lab).threads[t].q, call)
  {
    hide Act, Serves;
    if lab.t == t {
      ReturnEnds(s.fl, s.q, s.threads[t], lab);
      ActServes(s.fl, s.q, s.threads[t], lab, call);
    }
  }

  lemma ReturnEnds(fl: F.Freelist, q: Q.Queue, th: Thread, lab: Label)
    ensures th.q.pc == Q.Return ==> Act(fl, q, th, lab).th.q.pc == Q.Idle
  {
  }

  /** A thread inside a call began it with some step, and works with that step's operation and
      value. */
  lemma {:induction false} CallBegan(s: System, labels: seq<Label>, i: nat, t: Tid) returns (j: nat)
    requires i <= |labels| && InCall(Before(s, labels, i), t)
    requires t in s.threads ==> s.threads[t].q.pc == Q.Idle
    ensures j < i && CallSince(s, labels, i, t, j) && Serves(Before(s, labels, i).threads[t].q, labels[j])
  {
    NothingBefore(s, labels);
    hide Run, Before, Next, Serves;
    assert i > 0;
    RunStep(s, labels, i - 1);
    var s' := Before(s, labels, i - 1);
    ThreadsStay(s', labels[i - 1]);
    if InCall(s', t) {
      j := CallBegan(s, labels, i - 1, t);
      NextServes(s', labels[i - 1], t, labels[j]);
    } else {
      j := i - 1;
      CallStarts(s', labels[j], t);
    }
  }

  lemma ThreadsStay(s: System, lab: Label)
    ensures Next(s, lab).threads.Keys == s.threads.Keys
  {
    hide Act;
  }

  lemma CallStarts(s: System, lab: Label, t: Tid)
    requires HasThread(s, t, Q.Idle) && InCall(Next(s, lab), t)
    ensures lab.t == t && Serves(Next(s, lab).threads[t].q, lab)
  {
    hide Act, Serves;
    if lab.t == t {
      BeginServes(s.fl, s.q, s.threads[t], lab);
    }
  }

  // ---------------------------------------------------------- the step that takes effect

  /** The head swap of a dequeue is about to succeed. */
  ghost predicate HeadFires(q: Q.Queue, l: Q.Local) {
    l.pc == Q.DeqSwap && q.deq == l.deq
  }

  ghost predicate LinksAt(s: System, labels: seq<Label>, i: nat)
    requires i < |labels|
  {
    var s' := Before(s, labels, i);
    labels[i].t in s'.threads && Q.LinkFires(s'.q, s'.threads[labels[i].t].q)
  }

  ghost predicate TakesAt(s: System, labels: seq<Label>, i: nat)
    requires i < |labels|
  {
    var s' := Before(s, labels, i);
    labels[i].t in s'.threads && HeadFires(s'.q, s'.threads[labels[i].t].q)
  }

  /** The step is a swap that links a value or takes one. */
  ghost predicate FiresAt(s: System, labels: seq<Label>, i: nat)
    requires i < |labels|
  {
    LinksAt(s, labels, i) || TakesAt(s, labels, i)
  }

  /** What a step adds to the values that were linked. */
  ghost function Linking(q: Q.Queue, l: Q.Local): seq<Value> {
    if Q.LinkFires(q, l) then [l.value] else []
  }

  /** What a step adds to the values that came out. */
  ghost function Taking(q: Q.Queue, l: Q.Local): seq<Value> {
    if HeadFires(q, l) then [l.value] else []
  }

  lemma QueueLogs(q: Q.Queue, l: Q.Local, place: map<nat, Place>)
    ensures var q' := Q.Step(q, l, place);
      q'.linked == q.linked + Linking(q, l) && q'.out == q.out + Taking(q, l) && q.tags <= q'.tags
  {
    hide Q.SwingEnq, Q.Link, Q.SetNode, Q.Bump;
    SwingLogs(q, l, l.next.ptr);
    SwingLogs(q, l, l.elem);
    LinkLogs(q, l, Q.IsLive(place, l.enq.ptr));
    if l.pc in {Q.InitNextPtr, Q.InitNextCtr, Q.InitFe, Q.InitData} {
      WriteLogs(q, l, place);
    }
  }

  lemma SwingLogs(q: Q.Queue, l: Q.Local, p: nat)
    ensures var q' := Q.SwingEnq(q, l, p); q'.linked == q.linked && q'.out == q.out && q.tags <= q'.tags
  {
  }

  lemma LinkLogs(q: Q.Queue, l: Q.Local, live: bool)
    ensures var q' := Q.Link(q, l, live); q'.out == q.out && q.tags <= q'.tags
    ensures l.pc == Q.EnqLink ==> Q.Link(q, l, live).linked == q.linked + Linking(q, l)
  {
  }

  lemma WriteLogs(q: Q.Queue, l: Q.Local, place: map<nat, Place>)
    requires l.pc in {Q.InitNextPtr, Q.InitNextCtr, Q.InitFe, Q.InitData}
    ensures var q' := Q.Step(q, l, place); q'.linked == q.linked && q'.out == q.out && q.tags == q'.tags
  {
  }

  lemma ActLogs(fl: F.Freelist, q: Q.Queue, th: Thread, lab: Label)
    ensures var q' := Act(fl, q, th, lab).q;
      q'.linked == q.linked + Linking(q, th.q) && q'.out == q.out + Taking(q, th.q) && q.tags <= q'.tags
  {
    QueueLogs(q, th.q, fl.place);
    hide Q.Step, Q.StepPlace, Q.StepLocal, F.StepShared, F.StepFrame;
  }

  /** The logs grow by the value of the thread that steps, if its swap succeeds. */
  lemma StepLogs(s: System, labels: seq<Label>, i: nat)
    requires i < |labels|
    ensures var q, q', threads := Before(s, labels, i).q, Before(s, labels, i + 1).q, Before(s, labels, i).threads;
      && q'.linked == q.linked + (if LinksAt(s, labels, i) then [threads[labels[i].t].q.value] else [])
      && q'.out == q.out + (if TakesAt(s, labels, i) then [threads[labels[i].t].q.value] else [])
      && q.tags <= q'.tags
  {
    RunStep(s, labels, i);
    var s', lab := Before(s, labels, i), labels[i];
    hide Act, Before;
    if lab.t in s'.threads {
      ActLogs(s'.fl, s'.q, s'.threads[lab.t], lab);
    }
  }

  // ------------------------------------------------------------- one swap for each answer

  /** The call has taken effect. */
  predicate Committed(l: Q.Local) {
    l.pc in {Q.EnqSwing, Q.DeqFe, Q.Release} || (l.pc == Q.Return && l.rv != 0)
  }

  lemma LocalCommits(q: Q.Queue, l: Q.Local)
    requires InQueue(l.pc)
    ensures Committed(Q.StepLocal(q, l)) <==> Committed(l) || Q.LinkFires(q, l) || HeadFires(q, l)
    ensures !(Committed(l) && (Q.LinkFires(q, l) || HeadFires(q, l)))
    ensures Committed(Q.StepLocal(q, l)) ==> Q.StepLocal(q, l).value == l.value
  {
  }

  lemma ActCommits(fl: F.Freelist, q: Q.Queue, th: Thread, lab: Label)
    requires th.q.pc != Q.Idle && th.q.pc != Q.Return
    ensures var l, l' := th.q, Act(fl, q, th, lab).th.q;
      && (Committed(l') <==> Committed(l) || Q.LinkFires(q, l) || HeadFires(q, l))
      && !(Committed(l) && (Q.LinkFires(q, l) || HeadFires(q, l)))
      && (Committed(l') ==> l'.value == l.value)
  {
    if InQueue(th.q.pc) {
      LocalCommits(q, th.q);
      hide Q.StepLocal, Q.Step, Q.StepPlace, Committed, HeadFires, Q.LinkFires;
    } else {
      hide F.StepShared, F.StepFrame;
    }
  }

  lemma BeginCommits(fl: F.Freelist, q: Q.Queue, th: Thread, lab: Label)
    requires th.q.pc == Q.Idle
    ensures !Committed(Act(fl, q, th, lab).th.q) && !Q.LinkFires(q, th.q) && !HeadFires(q, th.q)
  {
  }

  /** One step further in a call. */
  lemma NextCommits(s: System, labels: seq<Label>, i: nat, t: Tid)
    requires i < |labels| && InCall(Before(s, labels, i), t) && InCall(Before(s, labels, i + 1), t)
    ensures var l, l' := Before(s, labels, i).threads[t].q, Before(s, labels, i + 1).threads[t].q;
      && (Committed(l') <==> Committed(l) || (labels[i].t == t && FiresAt(s, labels, i)))
      && !(Committed(l) && labels[i].t == t && FiresAt(s, labels, i))
      && (Committed(l') ==> l'.value == l.value)
  {
    RunStep(s, labels, i);
    var s' := Before(s, labels, i);
    hide Act, Before, Committed, HeadFires, Q.LinkFires;
    if labels[i].t == t {
      ReturnEnds(s'.fl, s'.q, s'.threads[t], labels[i]);
      ActCommits(s'.fl, s'.q, s'.threads[t], labels[i]);
    }
  }

  lemma FirstCommits(s: System, labels: seq<Label>, j: nat, t: Tid)
    requires j < |labels| && labels[j].t == t && HasThread(Before(s, labels, j), t, Q.Idle)
    requires InCall(Before(s, labels, j + 1), t)
    ensures !Committed(Before(s, labels, j + 1).threads[t].q) && !FiresAt(s, labels, j)
  {
    RunStep(s, labels, j);
    var s' := Before(s, labels, j);
    hide Act, Before, Committed, HeadFires, Q.LinkFires;
    BeginCommits(s'.fl, s'.q, s'.threads[t], labels[j]);
  }

  /** In the steps from `j` to `i` the thread's swap has succeeded in step `k` and in no other. */
  ghost predicate FiresOnce(s: System, labels: seq<Label>, i: nat, t: Tid, j: nat, k: nat)
    requires i <= |labels|
  {
    && j < k < i && labels[k].t == t && FiresAt(s, labels, k)
    && forall m | j <= m < i && labels[m].t == t && FiresAt(s, labels, m) :: m == k
  }

  ghost predicate NeverFires(s: System, labels: seq<Label>, i: nat, t: Tid, j: nat)
    requires i <= |labels|
  {
    forall m | j <= m < i && labels[m].t == t :: !FiresAt(s, labels, m)
  }

  /** A call that has taken effect did so with one step, and with the value it still has; a
      call that has not, has not swapped anything. */
  lemma {:induction false} TookEffect(s: System, labels: seq<Label>, i: nat, t: Tid, j: nat) returns (k: nat)
    requires i <= |labels| && CallSince(s, labels, i, t, j)
    ensures if Committed(Before(s, labels, i).threads[t].q)
      then FiresOnce(s, labels, i, t, j, k)
           && Before(s, labels, k).threads[t].q.value == Before(s, labels, i).threads[t].q.value
      else NeverFires(s, labels, i, t, j)
  {
    hide Before, Committed, FiresAt, HasThread;
    k := j;
    if j == i - 1 {
      FirstCommits(s, labels, j, t);
    } else {
      assert InCall(Before(s, labels, i - 1), t);
      NextCommits(s, labels, i - 1, t);
      k := TookEffect(s, labels, i - 1, t, j);
      if !Committed(Before(s, labels, i - 1).threads[t].q) && labels[i - 1].t == t && FiresAt(s, labels, i - 1) {
        k := i - 1;
      }
    }
  }

  /** An enqueue that answers 1 linked, in one step of its own, the value it was given; one
      that answers 0 linked nothing. */
  lemma EnqueueAnswered(s: System, n: nat, labels: seq<Label>, i: nat, t: Tid) returns (j: nat, k: nat)
    requires Init(s, n) && i <= |labels| && HasThread(Before(s, labels, i), t, Q.Return)
    requires Before(s, labels, i).threads[t].q.op != Q.Dequeue
    ensures CallSince(s, labels, i, t, j) && labels[j].op == Before(s, labels, i).threads[t].q.op
    ensures Before(s, labels, i).threads[t].q.rv <= 1
    ensures if Before(s, labels, i).threads[t].q.rv == 1
      then FiresOnce(s, labels, i, t, j, k) && LinksAt(s, labels, k)
           && Before(s, labels, k + 1).q.linked == Before(s, labels, k).q.linked + [labels[j].value]
      else NeverFires(s, labels, i, t, j)
  {
    assert t in s.threads ==> s.threads[t].q.pc == Q.Idle;
    j := CallBegan(s, labels, i, t);
    k := TookEffect(s, labels, i, t, j);
    hide Init, Before, FiresAt, Serves;
    ReturnCommits(Before(s, labels, i).threads[t].q, labels[j]);
    if Before(s, labels, i).threads[t].q.rv == 1 {
      LinkingCall(s, labels, t, j, k);
    }
  }

  /** A dequeue that answers 1 took, in one step of its own, the value it answers; one that
      answers 0 took nothing and answers NULL. */
  lemma DequeueAnswered(s: System, n: nat, labels: seq<Label>, i: nat, t: Tid) returns (j: nat, k: nat)
    requires Init(s, n) && i <= |labels| && HasThread(Before(s, labels, i), t, Q.Return)
    requires Before(s, labels, i).threads[t].q.op == Q.Dequeue
    ensures CallSince(s, labels, i, t, j) && labels[j].op == Q.Dequeue
    ensures Before(s, labels, i).threads[t].q.rv <= 1
    ensures var l := Before(s, labels, i).threads[t].q; if l.rv == 1
      then FiresOnce(s, labels, i, t, j, k) && TakesAt(s, labels, k)
           && Before(s, labels, k).threads[t].q.value == l.value
           && Before(s, labels, k + 1).q.out == Before(s, labels, k).q.out + [l.value]
      else NeverFires(s, labels, i, t, j) && l.value == NULL
  {
    assert t in s.threads ==> s.threads[t].q.pc == Q.Idle;
    j := CallBegan(s, labels, i, t);
    k := TookEffect(s, labels, i, t, j);
    hide Init, Before, FiresAt, Serves;
    ReturnCommits(Before(s, labels, i).threads[t].q, labels[j]);
    if Before(s, labels, i).threads[t].q.rv == 1 {
      TakingCall(s, labels, t, j, k);
    }
  }

  lemma ReturnCommits(l: Q.Local, call: Label)
    requires l.pc == Q.Return && Serves(l, call)
    ensures l.rv <= 1 && (Committed(l) <==> l.rv == 1) && l.op == call.op
    ensures l.op == Q.Dequeue && l.rv == 0 ==> l.value == NULL
  {
  }

  /** A swap in an enqueue links the value of the call. */
  lemma LinkingCall(s: System, labels: seq<Label>, t: Tid, j: nat, k: nat)
    requires k < |labels| && labels[k].t == t && FiresAt(s, labels, k) && CallSince(s, labels, k, t, j)
    requires labels[j].op != Q.Dequeue && (t in s.threads ==> s.threads[t].q.pc == Q.Idle)
    ensures LinksAt(s, labels, k)
    ensures Before(s, labels, k + 1).q.linked == Before(s, labels, k).q.linked + [labels[j].value]
  {
    assert InCall(Before(s, labels, k), t);
    var i := CallBegan(s, labels, k, t);
    SameCall(s, labels, k, t, i, j);
    StepLogs(s, labels, k);
    hide Before, HasThread;
  }

  lemma TakingCall(s: System, labels: seq<Label>, t: Tid, j: nat, k: nat)
    requires k < |labels| && labels[k].t == t && FiresAt(s, labels, k) && CallSince(s, labels, k, t, j)
    requires labels[j].op == Q.Dequeue && (t in s.threads ==> s.threads[t].q.pc == Q.Idle)
    ensures TakesAt(s, labels, k)
    ensures Before(s, labels, k + 1).q.out == Before(s, labels, k).q.out + [Before(s, labels, k).threads[t].q.value]
  {
    assert InCall(Before(s, labels, k), t);
    var i := CallBegan(s, labels, k, t);
    SameCall(s, labels, k, t, i, j);
    StepLogs(s, labels, k);
    hide Before, HasThread;
  }

  lemma IdleEarlier(s: System, labels: seq<Label>, i: nat, t: Tid, j: nat, k: nat)
    requires k <= i <= |labels| && CallSince(s, labels, i, t, j) && HasThread(Before(s, labels, k), t, Q.Idle)
    ensures k <= j
  {
    hide Before;
    if j < k {
      assert false;
    }
  }

  /** The step that began a call is unique. */
  lemma SameCall(s: System, labels: seq<Label>, i: nat, t: Tid, j: nat, k: nat)
    requires i <= |labels| && CallSince(s, labels, i, t, j) && CallSince(s, labels, i, t, k)
    ensures j == k
  {
    hide Before;
    IdleEarlier(s, labels, i, t, j, k);
    IdleEarlier(s, labels, i, t, k, j);
  }

  // ------------------------------------------------------------------ why enqueues fail

  /** The thread's pop found the freelist empty. */
  predicate Exhausted(th: Thread) {
    || (th.q.pc == Q.Acquire && th.f.pc == F.Done && th.f.elem == NULL)
    || (th.q.pc == Q.Return && th.q.op == Q.Enqueue && th.q.rv == 0)
  }

  /** The allocator gave the thread nothing. */
  predicate Refused(th: Thread) {
    th.q.pc == Q.Return && th.q.op == Q.GuaranteedEnqueue && th.q.rv == 0
  }

  /** Once it has its element, an enqueue does not fail. */
  lemma LocalFails(q: Q.Queue, l: Q.Local, call: Label)
    requires Serves(l, call) && InQueue(l.pc)
    ensures var l' := Q.StepLocal(q, l);
      l'.op == l.op && l'.pc !in {Q.Acquire, Q.Create} && (l'.pc == Q.Return && l'.op != Q.Dequeue ==> l'.rv == 1)
  {
    hide Q.StepLocal, Enqueues;
    LocalAnswers(q, l);
    if Enqueues(l.pc) {
      EnqueueFits(q, l);
      NotEnqueues();
    } else {
      DequeueFits(q, l);
    }
  }

  lemma ActExhausts(fl: F.Freelist, q: Q.Queue, th: Thread, lab: Label, call: Label)
    requires F.Valid(fl) && F.Knows(fl, th.f, lab.t) && Serves(th.q, call) && th.q.pc != Q.Return && Nested(th)
    requires Exhausted(Act(fl, q, th, lab).th)
    ensures Exhausted(th) || (th.q.pc == Q.Acquire && fl.stack == [])
  {
    if InQueue(th.q.pc) {
      LocalFails(q, th.q, call);
      hide Q.Step, Q.StepPlace, Q.StepLocal, F.Valid, F.Knows, InQueue, Serves;
    } else {
      hide F.Valid, F.Knows, F.StepShared, F.StepFrame, L.ActionOf;
      L.StepAnswers(fl, th.f, lab.t);
      EmptyAction(fl, th.f);
    }
  }

  lemma EmptyAction(fl: F.Freelist, fr: F.Frame)
    requires F.Valid(fl)
    ensures L.ActionOf(fl, fr) == L.PopEmpty ==> fl.stack == []
  {
    L.EmptyTop(fl);
    hide F.Valid;
  }

  lemma ActRefuses(fl: F.Freelist, q: Q.Queue, th: Thread, lab: Label, call: Label)
    requires Serves(th.q, call) && th.q.pc != Q.Return && Refused(Act(fl, q, th, lab).th)
    ensures th.q.pc == Q.Create && (lab.addr == NULL || lab.addr in q.heap)
  {
    if InQueue(th.q.pc) {
      LocalFails(q, th.q, call);
      hide Q.Step, Q.StepPlace, Q.StepLocal, InQueue, Serves;
    } else {
      hide F.StepShared, F.StepFrame;
    }
  }

  /** Step `k` of the call finds no element on the freelist. */
  ghost predicate RunsOut(s: System, labels: seq<Label>, t: Tid, k: nat)
    requires k < |labels|
  {
    labels[k].t == t && HasThread(Before(s, labels, k), t, Q.Acquire) && Before(s, labels, k).fl.stack == []
  }

  lemma NextExhausts(s: System, lab: Label, t: Tid, call: Label)
    requires Inv(s) && InCall(s, t) && InCall(Next(s, lab), t)
    requires Serves(s.threads[t].q, call) && Exhausted(Next(s, lab).threads[t])
    ensures Exhausted(s.threads[t]) || (lab.t == t && s.threads[t].q.pc == Q.Acquire && s.fl.stack == [])
  {
    L.FrameKnows(s, t);
    NestedOf(s, t);
    hide Inv, Act, Exhausted, Serves, F.Valid, F.Knows, Nested;
    if lab.t == t {
      ReturnEnds(s.fl, s.q, s.threads[t], lab);
      ActExhausts(s.fl, s.q, s.threads[t], lab, call);
    }
  }

  lemma NestedOf(s: System, t: Tid)
    requires Inv(s) && t in s.threads
    ensures Nested(s.threads[t])
  {
    assert ThreadInv(s.fl, s.q, s.threads[t], t);
    hide F.Valid, Q.Valid, HeldInv, Q.EnqKnows, Q.DeqKnows, Q.Owns, F.Knows, HeldOutside;
  }

  lemma NextRefuses(s: System, lab: Label, t: Tid, call: Label)
    requires InCall(s, t) && InCall(Next(s, lab), t)
    requires Serves(s.threads[t].q, call) && Refused(Next(s, lab).threads[t])
    ensures if lab.t == t then s.threads[t].q.pc == Q.Create && (lab.addr == NULL || lab.addr in s.q.heap)
      else Refused(s.threads[t])
  {
    hide Act, Refused, Serves;
    if lab.t == t {
      ReturnEnds(s.fl, s.q, s.threads[t], lab);
      ActRefuses(s.fl, s.q, s.threads[t], lab, call);
    }
  }

  lemma BeginSucceeds(s: System, lab: Label, t: Tid)
    requires HasThread(s, t, Q.Idle) && InCall(Next(s, lab), t)
    ensures !Exhausted(Next(s, lab).threads[t]) && !Refused(Next(s, lab).threads[t])
  {
  }

  /** Step `k` of the call asks the allocator in vain. */
  ghost predicate IsRefused(s: System, labels: seq<Label>, t: Tid, k: nat)
    requires k < |labels|
  {
    && labels[k].t == t && HasThread(Before(s, labels, k), t, Q.Create)
    && (labels[k].addr == NULL || labels[k].addr in Before(s, labels, k).q.heap)
  }

  lemma {:induction false} WhyExhausted(s: System, labels: seq<Label>, i: nat, t: Tid, j: nat) returns (k: nat)
    requires Inv(s) && i <= |labels| && CallSince(s, labels, i, t, j)
    requires t in s.threads ==> s.threads[t].q.pc == Q.Idle
    requires Exhausted(Before(s, labels, i).threads[t])
    ensures j < k < i && RunsOut(s, labels, t, k)
  {
    hide Inv, Before, Exhausted, Serves;
    RunStep(s, labels, i - 1);
    k := i - 1;
    if j == k {
      BeginSucceeds(Before(s, labels, j), labels[j], t);
      assert false;
    } else {
      assert InCall(Before(s, labels, k), t);
      var b := CallBegan(s, labels, k, t);
      RunKeepsInv(s, labels, k);
      NextExhausts(Before(s, labels, k), labels[k], t, labels[b]);
      if Exhausted(Before(s, labels, k).threads[t]) {
        k := WhyExhausted(s, labels, k, t, j);
      }
    }
  }

  lemma {:induction false} WhyRefused(s: System, labels: seq<Label>, i: nat, t: Tid, j: nat) returns (k: nat)
    requires i <= |labels| && CallSince(s, labels, i, t, j)
    requires t in s.threads ==> s.threads[t].q.pc == Q.Idle
    requires Refused(Before(s, labels, i).threads[t])
    ensures j < k < i && IsRefused(s, labels, t, k)
  {
    hide Before, Refused, Serves;
    RunStep(s, labels, i - 1);
    k := i - 1;
    if j == k {
      BeginSucceeds(Before(s, labels, j), labels[j], t);
      assert false;
    } else {
      assert InCall(Before(s, labels, k), t);
      var b := CallBegan(s, labels, k, t);
      NextRefuses(Before(s, labels, k), labels[k], t, labels[b]);
      if labels[k].t != t {
        k := WhyRefused(s, labels, k, t, j);
      }
    }
  }

  /** An enqueue answers 0 only if, in a step of its own, the freelist was empty; a guaranteed
      enqueue only if the allocator gave it nothing. */
  lemma EnqueueFails(s: System, n: nat, labels: seq<Label>, i: nat, t: Tid) returns (j: nat, k: nat)
    requires Init(s, n) && i <= |labels| && HasThread(Before(s, labels, i), t, Q.Return)
    requires var l := Before(s, labels, i).threads[t].q; l.op != Q.Dequeue && l.rv == 0
    ensures CallSince(s, labels, i, t, j) && j < k < i
    ensures if Before(s, labels, i).threads[t].q.op == Q.Enqueue then RunsOut(s, labels, t, k)
      else IsRefused(s, labels, t, k)
  {
    InitInv(s, n);
    assert t in s.threads ==> s.threads[t].q.pc == Q.Idle;
    hide Init, Inv, Before, Serves, RunsOut, IsRefused;
    j := CallBegan(s, labels, i, t);
    if Before(s, labels, i).threads[t].q.op == Q.Enqueue {
      k := WhyExhausted(s, labels, i, t, j);
    } else {
      k := WhyRefused(s, labels, i, t, j);
    }
  }
}
