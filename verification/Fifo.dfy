/** What the queue promises its callers, over whole schedules. */
module Fifo {
  import opened Words
  import opened Machine
  import opened MachineInvariant
  import opened MachineOrder
  import F = Freelist
  import Q = Queue
  import I = QueueInvariant
  import O = QueueOrder

  // ------------------------------------------- the queue's contents, from memory

  /** `c` is the chain of nodes that starts at `p` and follows `next` to NULL. */
  ghost predicate IsChain(heap: map<nat, Q.Node>, p: nat, c: seq<nat>)
    decreases |c|
  {
    if c == [] then p == NULL
    else p == c[0] && p in heap && p != NULL && IsChain(heap, heap[p].next.ptr, c[1..])
  }

  function Data(heap: map<nat, Q.Node>, c: seq<nat>): seq<Value> {
    if c == [] then [] else [Q.At(heap, c[0]).data] + Data(heap, c[1..])
  }

  /** The values returned so far, followed by those in the chain after the dummy, are
      the values of all enqueues that have taken effect, in order. */
  ghost predicate IsFifo(q: Q.Queue) {
    exists c :: c != [] && IsChain(q.heap, q.deq.ptr, c) && q.out + Data(q.heap, c[1..]) == q.linked
  }

  lemma {:induction false} ChainUnique(heap: map<nat, Q.Node>, p: nat, c: seq<nat>, d: seq<nat>)
    requires IsChain(heap, p, c) && IsChain(heap, p, d)
    ensures c == d
    decreases |c|
  {
    if c != [] && d != [] {
      ChainUnique(heap, heap[p].next.ptr, c[1..], d[1..]);
    }
  }

  lemma {:induction false} ChainSuffix(q: Q.Queue, i: nat)
    requires q.first <= i < |q.nodes| && Q.Allocated(q.heap, q.nodes)
    requires Q.Chained(q.heap, q.nodes, q.first) && q.heap[q.nodes[|q.nodes| - 1]].next.ptr == NULL
    ensures IsChain(q.heap, q.nodes[i], q.nodes[i..])
    decreases |q.nodes| - i
  {
    if i < |q.nodes| - 1 {
      ChainSuffix(q, i + 1);
      assert Q.NextIs(q.heap, q.nodes, i);
      assert q.nodes[i..][1..] == q.nodes[i + 1..];
    } else {
      assert q.nodes[i..] == [q.nodes[i]];
    }
  }

  lemma {:induction false} DataSuffix(q: Q.Queue, i: nat)
    requires q.first < i <= |q.nodes| && Q.Loaded(q.heap, q.nodes, q.values, q.first)
    ensures Data(q.heap, q.nodes[i..]) == q.values[i..]
    decreases |q.nodes| - i
  {
    if i < |q.nodes| {
      DataSuffix(q, i + 1);
      assert q.nodes[i..][1..] == q.nodes[i + 1..];
      assert q.values[i..] == [q.values[i]] + q.values[i + 1..];
    }
  }

  /** The live part of the history is what memory holds. */
  lemma LiveChain(q: Q.Queue, place: map<nat, Place>)
    requires Q.Valid(q, place) && O.Orderly(q, place)
    ensures IsChain(q.heap, q.deq.ptr, q.nodes[q.first..])
    ensures Data(q.heap, q.nodes[q.first + 1..]) == q.values[q.first + 1..]
  {
    hide Q.Placed, Q.Retired, Q.Hung, Q.Ended, Q.Aged, Q.Tagged, Q.TaggedBehind, Q.TagsUsed;
    hide O.Spent, O.Counted, O.NoneBehind, IsChain, Data;
    ChainSuffix(q, q.first);
    DataSuffix(q, q.first + 1);
  }

  lemma ValidIsFifo(q: Q.Queue, place: map<nat, Place>)
    requires Q.Valid(q, place) && O.Orderly(q, place)
    ensures IsFifo(q)
  {
    hide Q.Allocated, Q.Chained, Q.Loaded, Q.Placed, Q.Retired, Q.Hung, Q.Ended, Q.Aged, Q.Tagged, Q.TaggedBehind;
    hide Q.TagsUsed, O.Open, O.Spent, O.Counted, O.NoneBehind, IsChain, Data;
    LiveChain(q, place);
    var c := q.nodes[q.first..];
    assert c[1..] == q.nodes[q.first + 1..];
    assert q.out + q.values[q.first + 1..] == q.linked;
  }

  // ------------------------------------------------------------- stray links

  lemma {:induction false} ChainFrame(heap: map<nat, Q.Node>, x: nat, n: Q.Node, p: nat, c: seq<nat>)
    requires IsChain(heap, p, c) && x !in c
    ensures IsChain(heap[x := n], p, c)
    ensures Data(heap[x := n], c) == Data(heap, c)
    ensures c != [] ==> Data(heap[x := n], c[1..]) == Data(heap, c[1..])
    decreases |c|
  {
    if c != [] {
      ChainFrame(heap, x, n, heap[p].next.ptr, c[1..]);
    }
  }

  lemma StrayEffect(s: System, lab: Label)
    requires Stray(s, lab)
    ensures var q, q', l := s.q, Next(s, lab).q, s.threads[lab.t].q;
      && l.enq.ptr in q'.heap && q'.heap == q.heap[l.enq.ptr := q'.heap[l.enq.ptr]]
      && q'.deq == q.deq && q'.out == q.out && |q'.linked| == |q.linked| + 1
      && !Q.IsLive(s.fl.place, l.enq.ptr)
  {
  }

  lemma {:induction false} DataLength(heap: map<nat, Q.Node>, c: seq<nat>)
    ensures |Data(heap, c)| == |c|
    decreases |c|
  {
    if c != [] {
      DataLength(heap, c[1..]);
    }
  }

  /** A stray link makes an enqueue succeed without its value being in the queue. */
  lemma StrayBreaksFifo(s: System, lab: Label)
    requires Inv(s) && InOrder(s) && Stray(s, lab)
    ensures !IsFifo(Next(s, lab).q)
  {
    var q, l, x := s.q, s.threads[lab.t].q, s.threads[lab.t].q.enq.ptr;
    var q' := Next(s, lab).q;
    var live := q.nodes[q.first..];
    StrayEffect(s, lab);
    hide Next, Stray, F.Valid, ThreadInv, HeldInv, IsChain, Data, O.Orderly;
    LiveChain(q, s.fl.place);
    OutsideLive(q, s.fl.place, x);
    LengthOfValues(q, s.fl.place);
    hide Q.Valid;
    ChainFrame(q.heap, x, q'.heap[x], q.deq.ptr, live);
    forall c | c != [] && IsChain(q'.heap, q'.deq.ptr, c) ensures q'.out + Data(q'.heap, c[1..]) != q'.linked {
      ChainUnique(q'.heap, q'.deq.ptr, c, live);
      DataLength(q'.heap, live[1..]);
    }
  }

  lemma OutsideLive(q: Q.Queue, place: map<nat, Place>, x: nat)
    requires Q.Valid(q, place) && !Q.IsLive(place, x)
    ensures x !in q.nodes[q.first..]
  {
    I.LiveNodes(q, place);
    hide Q.Valid;
  }

  lemma LengthOfValues(q: Q.Queue, place: map<nat, Place>)
    requires Q.Valid(q, place) && O.Orderly(q, place)
    ensures q.first < |q.nodes| && |q.linked| - |q.out| == |q.nodes| - q.first - 1 && |q.linked| >= |q.out|
  {
    I.EndsOfValid(q, place);
    hide Q.Chained, Q.Loaded, Q.Placed, Q.Retired, Q.Hung, Q.Ended, Q.Aged, Q.Tagged, Q.TaggedBehind, Q.TagsUsed;
    hide O.Open, O.Spent, O.Counted, O.NoneBehind;
  }

  // ------------------------------------------------------------ initial states

  /** The addresses of the `n + 1` elements of a new queue. */
  function Addresses(n: nat): (r: set<nat>)
    ensures forall e :: e in r <==> 1 <= e <= n + 1
  {
    if n == 0 then {1} else Addresses(n - 1) + {n + 1}
  }

  /** The thread that built the queue. */
  const BUILDER: Tid := 0

  /** The freelist of a new queue of `n` elements: `n + 1` elements were pushed, element
      `e` with counter `e`, and the last one was popped again to be the dummy. */
  function NewFreelist(n: nat): F.Freelist {
    F.Freelist(
      Pair(n, n), n + 1, n + 1,
      map e | e in Addresses(n) :: Pair(e - 1, e - 1),
      seq(n, i requires 0 <= i < n => Pair(n - i, n - i)),
      Addresses(n),
      map c | c in Addresses(n) :: BUILDER,
      0,
      map e | e in Addresses(n) :: if e == n + 1 then Live(0) else Free(e))
  }

  /** The queue of a new queue: the counters of `enq` and `deq` and the elements other than
      the dummy have not been initialised. */
  ghost predicate NewQueue(q: Q.Queue, n: nat) {
    && q.enq == Pair(n + 1, q.enqBase) && q.deq == Pair(n + 1, q.deqBase) && q.aba == 0
    && q.heap.Keys == Addresses(n)
    && q.heap[n + 1] == Q.Node(Pair(NULL, 2), n + 1, NULL)
    && q.nodes == [n + 1] && q.values == [NULL] && q.draws == [2] && q.tags == [0] && q.tag == map[] && q.left == map[]
    && q.first == 0 && q.last == 0 && q.linked == [] && q.out == [] && q.commits == 0
  }

  ghost predicate Init(s: System, n: nat) {
    && s.fl == NewFreelist(n)
    && NewQueue(s.q, n)
    && (forall t | t in s.threads :: Fresh(s.threads[t]))
  }

  ghost predicate Fresh(th: Thread) {
    th.q.pc == Q.Idle && th.f.pc == F.Done && th.f.mark == 0 && th.q.mark == 0
  }

  lemma NewLinked(n: nat)
    ensures F.Linked(NewFreelist(n).next, NewFreelist(n).stack)
  {
  }

  lemma NewPlaced(n: nat)
    ensures F.Placed(NewFreelist(n).place, NewFreelist(n).stack)
  {
    var place, stack := NewFreelist(n).place, NewFreelist(n).stack;
    forall e | e in place && place[e].Free? ensures Pair(e, place[e].ctr) in stack {
      assert stack[n - e] == Pair(e, e);
    }
  }

  lemma NewFreelistValid(n: nat)
    ensures F.Valid(NewFreelist(n))
  {
    NewLinked(n);
    NewPlaced(n);
    hide F.Linked, F.Placed;
  }

  lemma NewQueueValid(q: Q.Queue, n: nat)
    requires NewQueue(q, n)
    ensures Q.Valid(q, NewFreelist(n).place)
  {
    assert q.nodes[0] == n + 1;
  }

  lemma InitInv(s: System, n: nat)
    requires Init(s, n)
    ensures Inv(s)
  {
    NewFreelistValid(n);
    NewQueueValid(s.q, n);
    NewHeldInv(n, s.threads);
    hide F.Valid, Q.Valid, NewFreelist, NewQueue, HeldInv;
    forall t | t in s.threads ensures ThreadInv(s.fl, s.q, s.threads[t], t) {
      FreshThread(s.fl, s.q, s.threads[t], t);
    }
    hide ThreadInv;
  }

  lemma NewHeldInv(n: nat, threads: map<Tid, Thread>)
    ensures HeldInv(NewFreelist(n).place, threads)
  {
  }

  lemma FreshThread(fl: F.Freelist, q: Q.Queue, th: Thread, t: Tid)
    requires Fresh(th)
    ensures ThreadInv(fl, q, th, t)
  {
  }

  lemma InitOrder(s: System, n: nat)
    requires Init(s, n)
    ensures InOrder(s)
  {
    NewOrderly(s.q, n);
    hide O.Orderly;
  }

  lemma NewOrderly(q: Q.Queue, n: nat)
    requires NewQueue(q, n)
    ensures O.Orderly(q, NewFreelist(n).place)
  {
  }

  // ------------------------------------------------------------ whole schedules

  /** The state before entry number `i` of the schedule. */
  function Before(s: System, labels: seq<Label>, i: nat): System
    requires i <= |labels|
  {
    Run(s, labels[..i])
  }

  lemma RunStep(s: System, labels: seq<Label>, i: nat)
    requires i < |labels|
    ensures Before(s, labels, i + 1) == Next(Before(s, labels, i), labels[i])
  {
    assert labels[..i + 1][..i] == labels[..i];
  }

  ghost predicate StrayAt(s: System, labels: seq<Label>, i: nat)
    requires i < |labels|
  {
    Stray(Before(s, labels, i), labels[i])
  }

  /** The invariant holds in every state of every schedule. */
  lemma {:induction false} RunKeepsInv(s: System, labels: seq<Label>, i: nat)
    requires Inv(s) && i <= |labels|
    ensures Inv(Before(s, labels, i))
  {
    hide Inv;
    if i > 0 {
      RunKeepsInv(s, labels, i - 1);
      RunStep(s, labels, i - 1);
      NextKeepsInv(Before(s, labels, i - 1), labels[i - 1]);
    }
  }

  /** The order holds until a stray link. */
  lemma {:induction false} RunKeepsOrder(s: System, labels: seq<Label>, i: nat)
    requires Inv(s) && InOrder(s) && i <= |labels|
    requires forall j | 0 <= j < i :: !StrayAt(s, labels, j)
    ensures InOrder(Before(s, labels, i))
  {
    hide Inv, InOrder, Next;
    if i > 0 {
      RunKeepsInv(s, labels, i - 1);
      RunKeepsOrder(s, labels, i - 1);
      RunStep(s, labels, i - 1);
      assert !StrayAt(s, labels, i - 1);
      NextKeepsOrder(Before(s, labels, i - 1), labels[i - 1]);
    }
  }

  // ------------------------------------------------------------------- main result

  /** The link swap succeeds on a node that another thread holds and has not linked yet. */
  ghost predicate HitsHeld(s: System, lab: Label) {
    && lab.t in s.threads && Q.LinkFires(s.q, s.threads[lab.t].q)
    && exists u :: u in s.threads && u != lab.t && Q.Owning(s.threads[u].q.pc)
                   && Q.Owned(s.threads[u].q) == s.threads[lab.t].q.enq.ptr
  }

  ghost predicate HitsHeldAt(s: System, labels: seq<Label>, i: nat)
    requires i < |labels|
  {
    HitsHeld(Before(s, labels, i), labels[i])
  }

  lemma HeldIsStray(s: System, lab: Label)
    requires Inv(s) && HitsHeld(s, lab)
    ensures Stray(s, lab)
  {
    var u :| u in s.threads && Q.Owning(s.threads[u].q.pc) && Q.Owned(s.threads[u].q) == s.threads[lab.t].q.enq.ptr;
    KnowsOf(s, u);
    hide Inv, Q.LinkFires;
  }

  /** The target of a stray link is held, as long as nothing hangs. */
  lemma StrayIsHeld(q: Q.Queue, place: map<nat, Place>, l: Q.Local, t: Tid)
    requires I.Linking(q, place, l, t) && O.NoneBehind(place) && !Q.IsLive(place, l.enq.ptr)
    ensures l.enq.ptr in place && place[l.enq.ptr].Held? && l.enq.ptr != l.elem
    ensures l.enq.ptr in q.nodes && Q.At(q.heap, l.enq.ptr).next.ptr == NULL
  {
    I.StrayTarget(q, place, l, t);
    assert l.enq.ptr in place by {
      hide Q.Chained, Q.Loaded, Q.Placed, Q.Hung, Q.Ended, Q.Aged, Q.Tagged, Q.TaggedBehind, Q.TagsUsed;
    }
    hide Q.Valid, Q.EnqKnows, Q.Owns;
  }

  /** A thread that holds an element with a NULL next that has been in the chain is in the
      middle of an enqueue. */
  lemma HolderOwns(fl: F.Freelist, q: Q.Queue, th: Thread, u: Tid, x: nat)
    requires ThreadInv(fl, q, th, u) && Holds(th) && Element(th) == x
    requires x in q.nodes && Q.At(q.heap, x).next.ptr == NULL
    ensures Q.Owning(th.q.pc) && th.q.pc !in {Q.InitDraw, Q.InitNextPtr, Q.DeqFe} && Q.Owned(th.q) == x
  {
    hide Q.Knows, F.Knows, Nested, Q.Bears;
  }

  lemma StrayHitsHeld(s: System, lab: Label)
    requires Inv(s) && InOrder(s) && Stray(s, lab)
    ensures HitsHeld(s, lab)
  {
    var l, x := s.threads[lab.t].q, s.threads[lab.t].q.enq.ptr;
    KnowsOf(s, lab.t);
    hide F.Valid, Q.Valid, Q.EnqKnows, Q.DeqKnows, Q.Owns, ThreadInv;
    hide O.Open, O.Spent, O.Counted, O.OrderKnows, O.OrderOwns;
    StrayIsHeld(s.q, s.fl.place, l, lab.t);
    HolderElse(s, lab.t);
    var u := s.fl.place[x].owner;
    HolderOwns(s.fl, s.q, s.threads[u], u, x);
  }

  /** A thread at its link swap holds its own element and no other. */
  lemma HolderElse(s: System, t: Tid)
    requires Inv(s) && t in s.threads && s.threads[t].q.pc == Q.EnqLink
    ensures forall e | e in s.fl.place && s.fl.place[e] == Held(t) :: e == s.threads[t].q.elem
  {
    hide F.Valid, Q.Valid, ThreadInv;
  }

  lemma InvIsFifo(s: System)
    requires Inv(s) && InOrder(s)
    ensures IsFifo(s.q)
  {
    ValidIsFifo(s.q, s.fl.place);
  }

  lemma FirstHit(s: System, labels: seq<Label>, i: nat)
    requires Inv(s) && InOrder(s) && i < |labels| && StrayAt(s, labels, i)
    requires forall j | 0 <= j < i :: !StrayAt(s, labels, j)
    ensures HitsHeldAt(s, labels, i) && !IsFifo(Before(s, labels, i + 1).q)
  {
    hide Inv, InOrder, IsFifo, Next, Stray, HitsHeld;
    RunKeepsInv(s, labels, i);
    RunKeepsOrder(s, labels, i);
    StrayHitsHeld(Before(s, labels, i), labels[i]);
    StrayBreaksFifo(Before(s, labels, i), labels[i]);
    RunStep(s, labels, i);
  }

  /** Without a stray link nothing is hit and the order holds throughout. */
  lemma OrderThroughout(s: System, labels: seq<Label>, i: nat)
    requires Inv(s) && InOrder(s) && i <= |labels| && forall j | 0 <= j < |labels| :: !StrayAt(s, labels, j)
    ensures IsFifo(Before(s, labels, i).q)
    ensures i < |labels| ==> !HitsHeldAt(s, labels, i)
  {
    hide Inv, InOrder, IsFifo, HitsHeld, Stray, Next, Before;
    RunKeepsInv(s, labels, i);
    RunKeepsOrder(s, labels, i);
    InvIsFifo(Before(s, labels, i));
    if i < |labels| {
      assert !StrayAt(s, labels, i);
      if HitsHeldAt(s, labels, i) {
        HeldIsStray(Before(s, labels, i), labels[i]);
      }
    }
  }

  /** The queue is first-in first-out throughout a schedule if and only if no link swap in
      it succeeds on a node that another thread holds and has not linked yet. */
  lemma FifoExactly(s: System, n: nat, labels: seq<Label>)
    requires Init(s, n)
    ensures (forall i | 0 <= i <= |labels| :: IsFifo(Before(s, labels, i).q))
       <==> (forall i | 0 <= i < |labels| :: !HitsHeldAt(s, labels, i))
  {
    InitInv(s, n);
    InitOrder(s, n);
    hide *;
    if i :| 0 <= i < |labels| && StrayAt(s, labels, i) {
      var j := FirstStray(s, labels, i);
      FirstHit(s, labels, j);
    } else {
      forall i | 0 <= i <= |labels|
        ensures IsFifo(Before(s, labels, i).q) && (i < |labels| ==> !HitsHeldAt(s, labels, i))
      {
        OrderThroughout(s, labels, i);
      }
    }
  }

  lemma {:induction false} FirstStray(s: System, labels: seq<Label>, i: nat) returns (j: nat)
    requires i < |labels| && StrayAt(s, labels, i)
    ensures j <= i && StrayAt(s, labels, j) && forall k | 0 <= k < j :: !StrayAt(s, labels, k)
  {
    if k :| 0 <= k < i && StrayAt(s, labels, k) {
      j := FirstStray(s, labels, k);
    } else {
      j := i;
    }
  }
}
