/** What a single call may rely on while other threads run: an "empty" answer was true at
    an instant within the call, a snapshot that passes its recheck was true all along,
    and no step dereferences NULL or unallocated memory. */
module Calls {
  import opened Words
  import opened Machine
  import opened MachineInvariant
  import opened MachineOrder
  import opened Fifo
  import F = Freelist
  import Q = Queue
  import I = QueueInvariant
  import O = QueueOrder

  // ------------------------------------------------------------- "empty" answers

  /** No node comes after the dummy. */
  predicate IsEmpty(q: Q.Queue) {
    Q.At(q.heap, q.deq.ptr).next.ptr == NULL
  }

  predicate HasThread(s: System, t: Tid, pc: Q.Pc) {
    t in s.threads && s.threads[t].q.pc == pc
  }

  /** Thread `t` read the next pointer of the dummy in step `j` and found the queue
      empty, and has been in the same call ever since. */
  ghost predicate FoundEmpty(s: System, labels: seq<Label>, i: nat, t: Tid, j: nat)
    requires i <= |labels|
  {
    && j < i
    && labels[j].t == t
    && HasThread(Before(s, labels, j), t, Q.DeqNextPtr)
    && IsEmpty(Before(s, labels, j).q)
    && (forall k | j <= k <= i :: !HasThread(Before(s, labels, k), t, Q.Idle))
  }

  /** On the way from reading an empty queue to returning 0. */
  predicate Concluding(l: Q.Local) {
    && l.sawEmpty
    && (l.pc in {Q.DeqNextCtr, Q.DeqCheckPtr, Q.DeqCheckCtr}
        || (l.pc == Q.Return && l.op == Q.Dequeue && l.rv == 0))
  }

  lemma ConcludingStep(fl: F.Freelist, q: Q.Queue, th: Thread, lab: Label)
    requires Q.DeqKnows(q, th.q) && Concluding(Act(fl, q, th, lab).th.q)
    ensures th.q.pc == Q.DeqNextPtr ==> IsEmpty(q)
    ensures th.q.pc != Q.DeqNextPtr ==> Concluding(th.q)
    ensures th.q.pc != Q.Idle
  {
  }

  /** One step back: either the thread found the queue empty just now, or it was already
      concluding before. */
  lemma ConcludingBack(s: System, lab: Label, t: Tid)
    requires Inv(s) && t in Next(s, lab).threads && Concluding(Next(s, lab).threads[t].q)
    ensures t in s.threads && s.threads[t].q.pc != Q.Idle
    ensures if lab.t == t && s.threads[t].q.pc == Q.DeqNextPtr then IsEmpty(s.q) else Concluding(s.threads[t].q)
  {
    KnowsOf(s, t);
    hide Inv, Act, Concluding, IsEmpty, Q.DeqKnows, Q.EnqKnows, Q.Owns;
    if lab.t == t {
      ConcludingStep(s.fl, s.q, s.threads[t], lab);
    } else {
      ConcludingIsBusy(s.threads[t].q);
    }
  }

  lemma {:induction false} ConcludingFoundEmpty(s: System, labels: seq<Label>, i: nat, t: Tid) returns (j: nat)
    requires Inv(s) && i <= |labels|
    requires t in s.threads ==> s.threads[t].q.pc == Q.Idle
    requires t in Before(s, labels, i).threads && Concluding(Before(s, labels, i).threads[t].q)
    ensures FoundEmpty(s, labels, i, t, j)
  {
    hide Inv, Concluding, IsEmpty, Run, Before, Next;
    NothingBefore(s, labels);
    ConcludingIsBusy(Before(s, labels, i).threads[t].q);
    RunKeepsInv(s, labels, i - 1);
    RunStep(s, labels, i - 1);
    ConcludingBack(Before(s, labels, i - 1), labels[i - 1], t);
    if labels[i - 1].t == t && HasThread(Before(s, labels, i - 1), t, Q.DeqNextPtr) {
      j := i - 1;
    } else {
      j := ConcludingFoundEmpty(s, labels, i - 1, t);
    }
  }

  lemma NothingBefore(s: System, labels: seq<Label>)
    ensures Before(s, labels, 0) == s
  {
    assert labels[..0] == [];
  }

  lemma ConcludingIsBusy(l: Q.Local)
    requires Concluding(l)
    ensures l.pc != Q.Idle
  {
  }

  /** A dequeue that returns 0 read its NULL next at an instant, within the call, at which
      no node came after the dummy. */
  lemma EmptyWasEmpty(s: System, n: nat, labels: seq<Label>, i: nat, t: Tid) returns (j: nat)
    requires Init(s, n) && i <= |labels|
    requires HasThread(Before(s, labels, i), t, Q.Return)
    requires var l := Before(s, labels, i).threads[t].q; l.op == Q.Dequeue && l.rv == 0
    ensures FoundEmpty(s, labels, i, t, j)
  {
    InitInv(s, n);
    RunKeepsInv(s, labels, i);
    KnowsOf(Before(s, labels, i), t);
    assert t in s.threads ==> s.threads[t].q.pc == Q.Idle;
    hide Init, Inv, Before, Q.EnqKnows, Q.Owns;
    j := ConcludingFoundEmpty(s, labels, i, t);
  }

  /** While the order holds, no node after the dummy means no value in the queue. */
  lemma EmptyHasNoValues(s: System)
    requires Inv(s) && InOrder(s)
    ensures IsEmpty(s.q) <==> s.q.linked == s.q.out
  {
    hide Q.Valid, O.Orderly, ThreadInv, F.Valid, HeldInv, IsEmpty;
    EmptyAtEnd(s.q, s.fl.place);
    LengthOfValues(s.q, s.fl.place);
    OutBeginsLinked(s.q, s.fl.place);
    assert s.q.linked[..|s.q.out|] == s.q.out;
  }

  lemma EmptyAtEnd(q: Q.Queue, place: map<nat, Place>)
    requires Q.Valid(q, place) && O.Orderly(q, place)
    ensures IsEmpty(q) <==> q.first + 1 == |q.nodes|
  {
    hide Q.Loaded, Q.Placed, Q.Retired, Q.Hung, Q.Ended, Q.Aged, Q.Tagged, Q.TaggedBehind, Q.TagsUsed, Q.Ends;
    hide O.Spent, O.Counted, O.NoneBehind;
    I.EndsOfValid(q, place);
    assert q.nodes[q.first] in q.heap;
    if q.first + 1 < |q.nodes| {
      assert Q.NextIs(q.heap, q.nodes, q.first);
    }
  }

  lemma OutBeginsLinked(q: Q.Queue, place: map<nat, Place>)
    requires Q.Valid(q, place) && O.Orderly(q, place)
    ensures q.out <= q.linked
  {
    hide Q.Chained, Q.Loaded, Q.Placed, Q.Retired, Q.Hung, Q.Ended, Q.Aged, Q.Tagged, Q.TaggedBehind, Q.TagsUsed;
    hide O.Spent, O.Counted, O.NoneBehind, Q.Ends;
    I.EndsOfValid(q, place);
    assert q.values[1..q.first + 1] == q.values[1..][..q.first];
  }

  // ---------------------------------------------------------- checked snapshots

  /** History grows along a schedule, and while an index stands still so does its pair. */
  lemma {:induction false} RunGrows(s: System, labels: seq<Label>, i: nat, k: nat)
    requires Inv(s) && i <= k <= |labels|
    ensures Q.Evolves(Before(s, labels, i).q, Before(s, labels, k).q)
    decreases k - i
  {
    hide Inv, Q.Evolves, Before, Next, Run;
    RunKeepsInv(s, labels, i);
    if i < k {
      RunStep(s, labels, i);
      NextEvolves(Before(s, labels, i), labels[i]);
      RunGrows(s, labels, i + 1, k);
      EvolvesTransitive(Before(s, labels, i).q, Before(s, labels, i + 1).q, Before(s, labels, k).q);
    } else {
      EvolvesReflexive(Before(s, labels, i).q);
    }
  }

  lemma EvolvesReflexive(q: Q.Queue)
    ensures Q.Evolves(q, q)
  {
  }

  lemma EvolvesTransitive(q: Q.Queue, q1: Q.Queue, q2: Q.Queue)
    requires Q.Evolves(q, q1) && Q.Evolves(q1, q2)
    ensures Q.Evolves(q, q2)
  {
  }

  lemma NextEvolves(s: System, lab: Label)
    requires Inv(s)
    ensures Q.Evolves(s.q, Next(s, lab).q)
  {
    hide Inv, Act;
    if lab.t in s.threads {
      SoundThread(s, lab.t);
      ActGood(s.fl, s.q, s.threads[lab.t], lab);
      hide Sound, F.Valid, Q.Valid, ThreadInv, Accounted, F.Evolves, Q.Evolves, Q.Respects, Q.Follows;
    } else {
      EvolvesReflexive(s.q);
    }
  }

  /** In the reads after the counter of `enq` (or `deq`) was read, and before the recheck. */
  predicate EnqPass(pc: Q.Pc) {
    pc in {Q.EnqNextPtr, Q.EnqNextCtr, Q.EnqCheckPtr, Q.EnqCheckCtr}
  }

  predicate DeqPass(pc: Q.Pc) {
    pc in {Q.DeqEnqPtr, Q.DeqEnqCtr, Q.DeqNextPtr, Q.DeqNextCtr, Q.DeqCheckPtr, Q.DeqCheckCtr}
  }

  predicate InPass(start: Q.Pc, pc: Q.Pc) {
    if start == Q.EnqCtr then EnqPass(pc) else DeqPass(pc)
  }

  /** Thread `t` read the counter in step `j`, at place `pc`, and has been in the same pass
      ever since. */
  ghost predicate PassSince(s: System, labels: seq<Label>, i: nat, t: Tid, j: nat, pc: Q.Pc)
    requires i <= |labels|
  {
    && j < i && labels[j].t == t && HasThread(Before(s, labels, j), t, pc)
    && forall k | j < k <= i :: t in Before(s, labels, k).threads && InPass(pc, Before(s, labels, k).threads[t].q.pc)
  }

  lemma PassLocal(q: Q.Queue, l: Q.Local)
    ensures var l' := Q.StepLocal(q, l);
      && (EnqPass(l'.pc) ==> if l.pc == Q.EnqCtr then l'.enqAt == q.last else EnqPass(l.pc) && l'.enqAt == l.enqAt)
      && (DeqPass(l'.pc) ==> if l.pc == Q.DeqCtr then l'.deqAt == q.first else DeqPass(l.pc) && l'.deqAt == l.deqAt)
  {
  }

  lemma OutsidePass(fl: F.Freelist, q: Q.Queue, th: Thread, lab: Label)
    requires !InQueue(th.q.pc)
    ensures var pc := Act(fl, q, th, lab).th.q.pc; !EnqPass(pc) && !DeqPass(pc)
  {
    hide F.StepShared, F.StepFrame;
  }

  /** One step back in a pass: the counter was read just now, or before. */
  lemma PassStep(fl: F.Freelist, q: Q.Queue, th: Thread, lab: Label)
    ensures var l, l' := th.q, Act(fl, q, th, lab).th.q;
      && (EnqPass(l'.pc) ==> if l.pc == Q.EnqCtr then l'.enqAt == q.last else EnqPass(l.pc) && l'.enqAt == l.enqAt)
      && (DeqPass(l'.pc) ==> if l.pc == Q.DeqCtr then l'.deqAt == q.first else DeqPass(l.pc) && l'.deqAt == l.deqAt)
  {
    if InQueue(th.q.pc) {
      hide Q.StepLocal, Q.Step, Q.StepPlace, EnqPass, DeqPass;
      PassLocal(q, th.q);
    } else {
      hide Act, EnqPass, DeqPass;
      OutsidePass(fl, q, th, lab);
    }
  }

  lemma PassBack(s: System, lab: Label, t: Tid)
    requires t in Next(s, lab).threads
    ensures t in s.threads
    ensures var l, l' := s.threads[t].q, Next(s, lab).threads[t].q;
      && (EnqPass(l'.pc) ==> if lab.t == t && l.pc == Q.EnqCtr then l'.enqAt == s.q.last
                             else EnqPass(l.pc) && l'.enqAt == l.enqAt)
      && (DeqPass(l'.pc) ==> if lab.t == t && l.pc == Q.DeqCtr then l'.deqAt == s.q.first
                             else DeqPass(l.pc) && l'.deqAt == l.deqAt)
  {
    hide Act;
    if lab.t == t {
      PassStep(s.fl, s.q, s.threads[t], lab);
    }
  }

  lemma {:induction false} EnqPassBegan(s: System, labels: seq<Label>, i: nat, t: Tid) returns (j: nat)
    requires i <= |labels| && (t in s.threads ==> s.threads[t].q.pc == Q.Idle)
    requires t in Before(s, labels, i).threads && EnqPass(Before(s, labels, i).threads[t].q.pc)
    ensures PassSince(s, labels, i, t, j, Q.EnqCtr)
    ensures Before(s, labels, i).threads[t].q.enqAt == Before(s, labels, j).q.last
  {
    NothingBefore(s, labels);
    hide Run, Before, Next;
    assert i > 0;
    RunStep(s, labels, i - 1);
    PassBack(Before(s, labels, i - 1), labels[i - 1], t);
    if labels[i - 1].t == t && HasThread(Before(s, labels, i - 1), t, Q.EnqCtr) {
      j := i - 1;
    } else {
      j := EnqPassBegan(s, labels, i - 1, t);
    }
  }

  lemma {:induction false} DeqPassBegan(s: System, labels: seq<Label>, i: nat, t: Tid) returns (j: nat)
    requires i <= |labels| && (t in s.threads ==> s.threads[t].q.pc == Q.Idle)
    requires t in Before(s, labels, i).threads && DeqPass(Before(s, labels, i).threads[t].q.pc)
    ensures PassSince(s, labels, i, t, j, Q.DeqCtr)
    ensures Before(s, labels, i).threads[t].q.deqAt == Before(s, labels, j).q.first
  {
    NothingBefore(s, labels);
    hide Run, Before, Next;
    assert i > 0;
    RunStep(s, labels, i - 1);
    PassBack(Before(s, labels, i - 1), labels[i - 1], t);
    if labels[i - 1].t == t && HasThread(Before(s, labels, i - 1), t, Q.DeqCtr) {
      j := i - 1;
    } else {
      j := DeqPassBegan(s, labels, i - 1, t);
    }
  }

  lemma EndsOf(s: System)
    requires Inv(s)
    ensures Q.Ends(s.q)
  {
  }

  /** Between two states in which `last` is the same, `enq` is the same. */
  lemma EnqStays(s: System, labels: seq<Label>, i: nat, m: nat, k: nat)
    requires Inv(s) && i <= m <= k <= |labels| && Before(s, labels, i).q.last == Before(s, labels, k).q.last
    ensures Before(s, labels, m).q.enq == Before(s, labels, k).q.enq
  {
    hide Before, Inv;
    RunKeepsInv(s, labels, k);
    RunKeepsInv(s, labels, m);
    RunGrows(s, labels, i, m);
    RunGrows(s, labels, m, k);
    EndsOf(Before(s, labels, k));
    EndsOf(Before(s, labels, m));
  }

  lemma DeqStays(s: System, labels: seq<Label>, i: nat, m: nat, k: nat)
    requires Inv(s) && i <= m <= k <= |labels| && Before(s, labels, i).q.first == Before(s, labels, k).q.first
    ensures Before(s, labels, m).q.deq == Before(s, labels, k).q.deq
  {
    hide Before, Inv;
    RunKeepsInv(s, labels, k);
    RunKeepsInv(s, labels, m);
    RunGrows(s, labels, i, m);
    RunGrows(s, labels, m, k);
    EndsOf(Before(s, labels, k));
    EndsOf(Before(s, labels, m));
  }

  lemma EnqCheckIsTrue(q: Q.Queue, l: Q.Local)
    requires Q.Ends(q) && Q.EnqKnows(q, l) && l.pc == Q.EnqCheckCtr && l.enq.ctr == q.enq.ctr
    ensures l.enqAt == q.last && l.enq == q.enq
  {
  }

  lemma DeqCheckIsTrue(q: Q.Queue, l: Q.Local)
    requires Q.Ends(q) && Q.DeqKnows(q, l) && l.pc == Q.DeqCheckCtr && l.deq.ctr == q.deq.ctr
    ensures l.deqAt == q.first && l.deq == q.deq
  {
  }

  /** If an enqueuer's recheck is about to pass in state `k`, there is the step `j` of the same
      pass that read the counter of `enq`, and in every state since then the pair that was
      read has been the true value of `enq`. */
  lemma EnqSnapshotTrue(s: System, n: nat, labels: seq<Label>, k: nat, t: Tid) returns (j: nat)
    requires Init(s, n) && k <= |labels| && HasThread(Before(s, labels, k), t, Q.EnqCheckCtr)
    requires Before(s, labels, k).threads[t].q.enq.ctr == Before(s, labels, k).q.enq.ctr
    ensures PassSince(s, labels, k, t, j, Q.EnqCtr)
    ensures forall m | j <= m <= k :: Before(s, labels, m).q.enq == Before(s, labels, k).threads[t].q.enq
  {
    InitInv(s, n);
    assert t in s.threads ==> s.threads[t].q.pc == Q.Idle;
    hide Init, Inv, Before, Q.EnqKnows, Q.DeqKnows, Q.Owns, Q.Ends;
    RunKeepsInv(s, labels, k);
    KnowsOf(Before(s, labels, k), t);
    EnqCheckIsTrue(Before(s, labels, k).q, Before(s, labels, k).threads[t].q);
    j := EnqPassBegan(s, labels, k, t);
    hide PassSince;
    assert j <= k by { PassIsEarlier(s, labels, k, t, j, Q.EnqCtr); }
    forall m | j <= m <= k ensures Before(s, labels, m).q.enq == Before(s, labels, k).threads[t].q.enq {
      EnqStays(s, labels, j, m, k);
    }
  }

  lemma PassIsEarlier(s: System, labels: seq<Label>, k: nat, t: Tid, j: nat, pc: Q.Pc)
    requires k <= |labels| && PassSince(s, labels, k, t, j, pc)
    ensures j < k
  {
  }

  /** The same for a dequeuer and `deq`. */
  lemma DeqSnapshotTrue(s: System, n: nat, labels: seq<Label>, k: nat, t: Tid) returns (j: nat)
    requires Init(s, n) && k <= |labels| && HasThread(Before(s, labels, k), t, Q.DeqCheckCtr)
    requires Before(s, labels, k).threads[t].q.deq.ctr == Before(s, labels, k).q.deq.ctr
    ensures PassSince(s, labels, k, t, j, Q.DeqCtr)
    ensures forall m | j <= m <= k :: Before(s, labels, m).q.deq == Before(s, labels, k).threads[t].q.deq
  {
    InitInv(s, n);
    assert t in s.threads ==> s.threads[t].q.pc == Q.Idle;
    hide Init, Inv, Before, Q.EnqKnows, Q.DeqKnows, Q.Owns, Q.Ends;
    RunKeepsInv(s, labels, k);
    KnowsOf(Before(s, labels, k), t);
    DeqCheckIsTrue(Before(s, labels, k).q, Before(s, labels, k).threads[t].q);
    j := DeqPassBegan(s, labels, k, t);
    hide PassSince;
    assert j <= k by { PassIsEarlier(s, labels, k, t, j, Q.DeqCtr); }
    forall m | j <= m <= k ensures Before(s, labels, m).q.deq == Before(s, labels, k).threads[t].q.deq {
      DeqStays(s, labels, j, m, k);
    }
  }

  /** In the attempt-dequeue state the next pointer is a node's, whatever else happened; if
      the head swap succeeds, the value read is the one that node carries. */
  lemma AttemptIsSafe(s: System, t: Tid)
    requires Inv(s) && HasThread(s, t, Q.DeqSwap)
    ensures s.threads[t].q.next.ptr in s.q.heap && s.threads[t].q.next.ptr != NULL
    ensures s.q.deq == s.threads[t].q.deq ==>
      var l := s.threads[t].q;
      Q.At(s.q.heap, s.q.deq.ptr).next.ptr == l.next.ptr && Q.At(s.q.heap, l.next.ptr).data == l.value
  {
    KnowsOf(s, t);
    assert Q.Valid(s.q, s.fl.place);
    hide F.Valid, HeldInv, ThreadInv, Q.EnqKnows, Q.Owns;
    SwapIsSafe(s.q, s.fl.place, s.threads[t].q);
  }

  lemma SwapIsSafe(q: Q.Queue, place: map<nat, Place>, l: Q.Local)
    requires Q.Valid(q, place) && Q.DeqKnows(q, l) && l.pc == Q.DeqSwap
    ensures l.next.ptr in q.heap && l.next.ptr != NULL
    ensures q.deq == l.deq ==>
      Q.At(q.heap, q.deq.ptr).next.ptr == l.next.ptr && Q.At(q.heap, l.next.ptr).data == l.value
  {
    hide Q.Placed, Q.Retired, Q.Hung, Q.Ended, Q.Aged, Q.Tagged, Q.TaggedBehind, Q.TagsUsed;
    if q.deq == l.deq {
      I.HeadGoes(q, l);
      assert Q.NextIs(q.heap, q.nodes, q.first);
    }
  }

  /** While the order holds, it is the oldest value in the queue. */
  lemma DequeueTakesOldest(s: System, t: Tid)
    requires Inv(s) && InOrder(s) && HasThread(s, t, Q.DeqSwap) && s.q.deq == s.threads[t].q.deq
    ensures |s.q.out| < |s.q.linked| && s.threads[t].q.value == s.q.linked[|s.q.out|]
  {
    KnowsOf(s, t);
    assert Q.Valid(s.q, s.fl.place);
    hide F.Valid, HeldInv, ThreadInv, Q.EnqKnows, Q.Owns, O.OrderKnows, O.OrderOwns;
    OldestTaken(s.q, s.fl.place, s.threads[t].q);
  }

  lemma OldestTaken(q: Q.Queue, place: map<nat, Place>, l: Q.Local)
    requires Q.Valid(q, place) && O.Orderly(q, place) && Q.DeqKnows(q, l) && l.pc == Q.DeqSwap && q.deq == l.deq
    ensures |q.out| < |q.linked| && l.value == q.linked[|q.out|]
  {
    I.EndsOfValid(q, place);
    I.HeadGoes(q, l);
    LoggedOf(q, place);
    hide *;
    OldestIs(q.values, q.first);
  }

  lemma LoggedOf(q: Q.Queue, place: map<nat, Place>)
    requires Q.Valid(q, place) && O.Orderly(q, place)
    ensures q.first < |q.values| && q.linked == q.values[1..] && q.out == q.values[1..q.first + 1]
  {
  }

  lemma OldestIs(values: seq<Value>, first: nat)
    requires first + 1 < |values|
    ensures |values[1..first + 1]| == first && values[1..][first] == values[first + 1]
  {
  }

  // -------------------------------------------------------------- memory safety

  /** The address a thread's next step dereferences, if it dereferences one. */
  function Dereferences(th: Thread): seq<nat> {
    match th.q.pc
    case InitNextPtr | InitNextCtr | InitFe | InitData => [th.q.elem]
    case EnqNextPtr | EnqNextCtr | EnqLink => [th.q.enq.ptr]
    case DeqNextPtr | DeqNextCtr | DeqFe => [th.q.deq.ptr]
    case DeqData => [th.q.next.ptr]
    case Acquire | Release =>
      (match th.f.pc
       case PopNextPtr | PopNextCtr => [th.f.top.ptr]
       case PushNextPtr | PushNextCtr => [th.f.elem]
       case _ => [])
    case _ => []
  }

  /** In every state of every schedule, the next step of a thread dereferences the address of
      an element, if it dereferences anything. */
  lemma NeverWild(s: System, n: nat, labels: seq<Label>, i: nat, t: Tid)
    requires Init(s, n) && i <= |labels| && t in Before(s, labels, i).threads
    ensures var s' := Before(s, labels, i);
      forall p | p in Dereferences(s'.threads[t]) :: p != NULL && p in s'.q.heap && p in s'.fl.next
  {
    InitInv(s, n);
    RunKeepsInv(s, labels, i);
    var s' := Before(s, labels, i);
    hide Init, Before;
    KnowsOf(s', t);
    AddressesAgree(s');
    assert ThreadInv(s'.fl, s'.q, s'.threads[t], t);
    hide Inv, ThreadInv, Dereferences;
    SafeTarget(s'.fl, s'.q, s'.threads[t], t);
  }

  lemma AddressesAgree(s: System)
    requires Inv(s)
    ensures s.fl.next.Keys == s.q.heap.Keys && NULL !in s.q.heap
    ensures forall i | 0 <= i < |s.q.nodes| :: s.q.nodes[i] in s.q.heap
  {
    hide ThreadInv, HeldInv, F.Linked, F.Placed, F.Counted, Q.Chained, Q.Loaded, Q.Placed, Q.Retired, Q.Hung, Q.Ended;
    hide Q.Aged, Q.Tagged, Q.TaggedBehind, Q.TagsUsed;
  }

  lemma SafeTarget(fl: F.Freelist, q: Q.Queue, th: Thread, t: Tid)
    requires ThreadInv(fl, q, th, t) && fl.next.Keys == q.heap.Keys && NULL !in q.heap
    requires forall i | 0 <= i < |q.nodes| :: q.nodes[i] in q.heap
    ensures forall p | p in Dereferences(th) :: p != NULL && p in q.heap && p in fl.next
  {
  }
}
