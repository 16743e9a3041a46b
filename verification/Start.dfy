/** The machine starts where construction ends: the words of the objects that queue_new leaves,
    with the elements numbered in the order in which they were pushed, are an initial state. */
module Start {
  import opened Words
  import opened Machine
  import opened Fifo
  import opened HeapFreelist
  import opened HeapQueue
  import F = Freelist
  import Q = Queue

  /** The number of an element of a new queue: its place from the bottom of the freelist, the
      dummy last, NULL for none. */
  ghost function Number(qs: QueueState, n: nat, f: FreelistElement?): nat
    reads qs, qs.deq, qs.fs
  {
    if f == null then NULL
    else if f == qs.deq.fe then n + 1
    else if i :| 0 <= i < |qs.fs.stack| && qs.fs.stack[i] == f then (if i < n then n - i else NULL)
    else NULL
  }

  /** The element with a number. */
  ghost function Element(qs: QueueState, n: nat, e: nat): FreelistElement?
    reads qs, qs.deq, qs.fs
  {
    if e == n + 1 then qs.deq.fe
    else if 1 <= e <= n && |qs.fs.stack| == n then qs.fs.stack[n - e]
    else null
  }

  /** The freelist's words, read from the objects. */
  ghost function FreelistImage(qs: QueueState, n: nat): F.Freelist
    reads qs, qs.deq, qs.deq.fe, qs.fs, qs.fs.stack
  {
    Fifo.NewFreelist(n).(
      top := Pair(Number(qs, n, qs.fs.top), qs.fs.topCtr),
      aba := qs.fs.aba,
      count := qs.fs.elementCount,
      next := map e | e in Addresses(n) ::
        var f := Element(qs, n, e);
        if f != null && (f == qs.deq.fe || f in qs.fs.stack) then Pair(Number(qs, n, f.next), f.nextCtr) else NONE)
  }

  /** The queue's words.  The fields of elements on the freelist are whatever `junk` says. */
  ghost function QueueImage(qs: QueueState, n: nat, junk: Q.Node): Q.Queue
    reads qs, qs.deq
  {
    var node := Q.Node(Pair(if qs.deq.next == null then NULL else n + 1, qs.deq.nextCtr), n + 1, qs.deq.data);
    Q.Queue(
      Pair(if qs.enq == qs.deq then n + 1 else NULL, qs.enqCtr), Pair(n + 1, qs.deqCtr), qs.aba,
      map e | e in Addresses(n) :: if e == n + 1 then node else junk,
      [n + 1], [NULL], [2], [0], map[], map[], 0, 0, qs.enqCtr, qs.deqCtr, [], [], 0)
  }

  lemma NumberOfStack(qs: QueueState, n: nat, i: nat)
    requires qs.Valid() && Built(qs, n) && i < n
    ensures Number(qs, n, qs.fs.stack[i]) == n - i
  {
    assert Distinct(qs.fs.stack);
    assert qs.deq.fe !in qs.fs.stack by {
      hide FreelistState.Valid, Linked, Paired;
    }
    hide QueueState.Valid, Built;
  }

  /** The next words of each element are those of the machine's initial freelist. */
  lemma NextWords(qs: QueueState, n: nat, e: nat)
    requires qs.Valid() && Built(qs, n) && 1 <= e <= n + 1
    ensures var f := Element(qs, n, e);
      && f != null && (f == qs.deq.fe || f in qs.fs.stack)
      && Pair(Number(qs, n, f.next), f.nextCtr) == Pair(e - 1, e - 1)
  {
    assert qs.fs.Valid();
    if e == n + 1 {
      if n > 0 {
        NumberOfStack(qs, n, 0);
      }
    } else if e > 1 {
      var i, j := n - e, n - e + 1;
      assert qs.fs.stack[i].next == qs.fs.stack[j];
      NumberOfStack(qs, n, j);
    }
    hide QueueState.Well, Number;
  }

  lemma FreelistStarts(qs: QueueState, n: nat)
    requires qs.Valid() && Built(qs, n)
    ensures FreelistImage(qs, n) == Fifo.NewFreelist(n)
  {
    assert qs.fs.Valid();
    if n > 0 {
      NumberOfStack(qs, n, 0);
    }
    forall e | e in Addresses(n) ensures FreelistImage(qs, n).next[e] == Pair(e - 1, e - 1) {
      NextWords(qs, n, e);
      hide QueueState.Valid, Built, Number, Element;
    }
    hide QueueState.Valid, Element;
    assert FreelistImage(qs, n).next == Fifo.NewFreelist(n).next;
  }

  lemma QueueStarts(qs: QueueState, n: nat, junk: Q.Node)
    requires Built(qs, n)
    ensures Fifo.NewQueue(QueueImage(qs, n, junk), n)
  {
  }

  /** A new queue is an initial state of the machine, for any number of idle threads. */
  lemma NewQueueIsInit(qs: QueueState, n: nat, junk: Q.Node, threads: map<Tid, Thread>)
    requires qs.Valid() && Built(qs, n) && forall t | t in threads :: Fresh(threads[t])
    ensures Init(System(FreelistImage(qs, n), QueueImage(qs, n, junk), threads), n)
  {
    FreelistStarts(qs, n);
    QueueStarts(qs, n, junk);
    hide QueueState.Valid, Built, Fresh, FreelistImage, QueueImage, Fifo.NewFreelist, Fifo.NewQueue;
  }
}
