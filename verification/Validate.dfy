/** The structure checker: loop detection on any heap, then the count of elements against a
    range.  Arithmetic on counts is unsigned and wraps. */
module Validate {
  import opened Words
  import opened Walks
  import opened HeapFreelist
  import opened HeapQueue

  /** The number of values of `atom_t`. */
  const WORD: nat := 0x1_0000_0000_0000_0000

  function Wrap(x: int): (r: nat)
    ensures r < WORD && (0 <= x < WORD ==> r == x)
  {
    x % WORD
  }

  /** What is lost is a multiple of `WORD`; so arithmetic may be done on wrapped numbers. */
  lemma WrapLoses(x: int, d: int)
    ensures exists k: int :: x == Wrap(x) + k * WORD
    ensures Wrap(Wrap(x) + d) == Wrap(x + d)
  {
    assert x == Wrap(x) + (x / WORD) * WORD;
  }

  datatype Validity = OK | Loop | MissingElements | AdditionalElements

  datatype Range = Range(min: nat, max: nat)

  /** A count against the range; too many is reported in preference to too few. */
  function Judge(count: nat, range: Range): (r: Validity)
    ensures r == OK <==> range.min <= count <= range.max
    ensures r == AdditionalElements <==> count > range.max
    ensures r == MissingElements <==> count < range.min && count <= range.max
  {
    if count > range.max then AdditionalElements
    else if count < range.min then MissingElements
    else OK
  }

  // ------------------------------------------------------------------ freelist

  ghost predicate FreelistHeap(heap: set<FreelistElement>)
    reads heap
  {
    forall n | n in heap :: n.next != null ==> n.next in heap
  }

  ghost function FreelistLinks(heap: set<FreelistElement>): (r: map<FreelistElement, FreelistElement>)
    reads heap
  {
    map n | n in heap && n.next != null :: var m: FreelistElement := n.next; m
  }

  function FreelistSpot(n: FreelistElement?): Spot<FreelistElement> {
    if n == null then End else var m: FreelistElement := n; On(m)
  }

  /** The slow and the fast pointer find out whether the chain from `top` has a cycle. */
  method FreelistLoop(top: FreelistElement?, ghost heap: set<FreelistElement>) returns (loop: bool)
    requires FreelistHeap(heap) && (top != null ==> top in heap)
    ensures loop <==> Cyclic(FreelistLinks(heap), FreelistSpot(top))
  {
    ghost var nx, x := FreelistLinks(heap), FreelistSpot(top);
    ghost var m := Bound(nx, x);
    ghost var i := 0;
    var slow, fast := top, top;
    if slow != null {
      var again := true;
      while again
        invariant slow != null ==> slow in heap
        invariant fast != null ==> fast in heap
        invariant FreelistSpot(slow) == Walk(nx, x, i) && FreelistSpot(fast) == Walk(nx, x, 2 * i)
        invariant i <= m && (i == 0 ==> again)
        invariant again ==> slow != null && (i == 0 || fast != slow)
        invariant !again ==> slow == null || fast == slow
        decreases m - i, again
      {
        slow := slow.next;
        if fast != null {
          fast := fast.next;
        }
        if fast != null {
          fast := fast.next;
        }
        i := i + 1;
        assert Walk(nx, x, 2 * i) == Follow(nx, Follow(nx, Walk(nx, x, 2 * i - 2)));
        again := slow != null && fast != slow;
      }
      Verdict(nx, x, i);
    } else if Cyclic(nx, x) {
      CyclicNeverEnds(nx, x, 0);
    }
    loop := fast != null && slow != null && fast == slow;
  }

  method FreelistCount(top: FreelistElement?, ghost heap: set<FreelistElement>, ghost n: nat) returns (count: nat)
    requires FreelistHeap(heap) && (top != null ==> top in heap)
    requires EndsAfter(FreelistLinks(heap), FreelistSpot(top), n)
    ensures count == Wrap(n)
  {
    hide Wrap;
    ghost var nx, x := FreelistLinks(heap), FreelistSpot(top);
    ghost var i := 0;
    var fe := top;
    count := 0;
    while fe != null
      invariant fe != null ==> fe in heap
      invariant i <= n && FreelistSpot(fe) == Walk(nx, x, i) && count == Wrap(i)
      decreases n - i
    {
      WrapLoses(i, 1);
      count := Wrap(count + 1);
      fe := fe.next;
      i := i + 1;
    }
  }

  /** freelist_internal_validate */
  method ValidateFreelist(fs: FreelistState, vi: Option<Range>, ghost heap: set<FreelistElement>) returns (r: Validity)
    requires FreelistHeap(heap) && (fs.top != null ==> fs.top in heap)
    ensures r == Loop <==> Cyclic(FreelistLinks(heap), FreelistSpot(fs.top))
    ensures vi == None ==> r == OK || r == Loop
    ensures forall n: nat | EndsAfter(FreelistLinks(heap), FreelistSpot(fs.top), n) && vi.Some? ::
      r == Judge(Wrap(n), vi.value)
  {
    hide Cyclic, EndsAfter, FreelistLinks, QueueLinks;
    ghost var nx, x := FreelistLinks(heap), FreelistSpot(fs.top);
    EndsOnce(nx, x);
    r := OK;
    var loop := FreelistLoop(fs.top, heap);
    if loop {
      r := Loop;
    }
    if r == OK && vi.Some? {
      CyclicOrEnds(nx, x);
      ghost var n: nat :| EndsAfter(nx, x, n);
      var count := FreelistCount(fs.top, heap, n);
      if count < vi.value.min {
        r := MissingElements;
      }
      if count > vi.value.max {
        r := AdditionalElements;
      }
    }
  }

  // --------------------------------------------------------------------- queue

  ghost predicate QueueHeap(heap: set<QueueElement>)
    reads heap
  {
    forall n | n in heap :: n.next != null ==> n.next in heap
  }

  ghost function QueueLinks(heap: set<QueueElement>): (r: map<QueueElement, QueueElement>)
    reads heap
  {
    map n | n in heap && n.next != null :: var m: QueueElement := n.next; m
  }

  function QueueSpot(n: QueueElement?): Spot<QueueElement> {
    if n == null then End else var m: QueueElement := n; On(m)
  }

  method QueueLoop(deq: QueueElement?, ghost heap: set<QueueElement>) returns (loop: bool)
    requires QueueHeap(heap) && (deq != null ==> deq in heap)
    ensures loop <==> Cyclic(QueueLinks(heap), QueueSpot(deq))
  {
    ghost var nx, x := QueueLinks(heap), QueueSpot(deq);
    ghost var m := Bound(nx, x);
    ghost var i := 0;
    var slow, fast := deq, deq;
    if slow != null {
      var again := true;
      while again
        invariant slow != null ==> slow in heap
        invariant fast != null ==> fast in heap
        invariant QueueSpot(slow) == Walk(nx, x, i) && QueueSpot(fast) == Walk(nx, x, 2 * i)
        invariant i <= m && (i == 0 ==> again)
        invariant again ==> slow != null && (i == 0 || fast != slow)
        invariant !again ==> slow == null || fast == slow
        decreases m - i, again
      {
        slow := slow.next;
        if fast != null {
          fast := fast.next;
        }
        if fast != null {
          fast := fast.next;
        }
        i := i + 1;
        assert Walk(nx, x, 2 * i) == Follow(nx, Follow(nx, Walk(nx, x, 2 * i - 2)));
        again := slow != null && fast != slow;
      }
      Verdict(nx, x, i);
    } else if Cyclic(nx, x) {
      CyclicNeverEnds(nx, x, 0);
    }
    loop := fast != null && slow != null && fast == slow;
  }

  method QueueCount(deq: QueueElement?, ghost heap: set<QueueElement>, ghost n: nat) returns (count: nat)
    requires QueueHeap(heap) && (deq != null ==> deq in heap)
    requires EndsAfter(QueueLinks(heap), QueueSpot(deq), n)
    ensures count == Wrap(n - 1)
  {
    hide Wrap;
    ghost var nx, x := QueueLinks(heap), QueueSpot(deq);
    ghost var i := 0;
    var qe := deq;
    count := 0;
    while qe != null
      invariant qe != null ==> qe in heap
      invariant i <= n && QueueSpot(qe) == Walk(nx, x, i) && count == Wrap(i)
      decreases n - i
    {
      WrapLoses(i, 1);
      count := Wrap(count + 1);
      qe := qe.next;
      i := i + 1;
    }
    WrapLoses(n, -1);
    count := Wrap(count - 1);
  }

  /** The range for the freelist that corresponds to a range for the queue. */
  function Complement(total: nat, range: Range): Range {
    Range(Wrap(Wrap(total - 1) - range.max), Wrap(Wrap(total - 1) - range.min))
  }

  /** With possible numbers the freelist is judged by what the queue leaves over. */
  lemma JudgesComplement(total: nat, n: nat, range: Range)
    ensures 1 <= total < WORD && range.min <= range.max < total && n < WORD ==>
      var least, most := total - 1 - range.max, total - 1 - range.min;
      var r := Judge(Wrap(n), Complement(total, range));
      && (r == OK <==> least <= n <= most)
      && (r == AdditionalElements <==> n > most)
      && (r == MissingElements <==> n < least)
  {
    hide Wrap;
  }

  /** queue_internal_validate */
  method ValidateQueue(qs: QueueState, vi: Option<Range>, ghost heap: set<QueueElement>,
                       ghost freeHeap: set<FreelistElement>)
    returns (queue: Validity, freelist: Validity)
    requires QueueHeap(heap) && qs.deq in heap
    requires FreelistHeap(freeHeap) && (qs.fs.top != null ==> qs.fs.top in freeHeap)
    ensures queue == Loop <==> Cyclic(QueueLinks(heap), QueueSpot(qs.deq))
    ensures freelist == Loop <==> Cyclic(FreelistLinks(freeHeap), FreelistSpot(qs.fs.top))
    ensures vi == None ==> (queue == OK || queue == Loop) && (freelist == OK || freelist == Loop)
    ensures forall n: nat | EndsAfter(QueueLinks(heap), QueueSpot(qs.deq), n) && vi.Some? ::
      queue == Judge(Wrap(n - 1), vi.value)
    ensures forall n: nat | EndsAfter(FreelistLinks(freeHeap), FreelistSpot(qs.fs.top), n) && vi.Some? ::
      freelist == Judge(Wrap(n), Complement(qs.fs.elementCount, vi.value))
    ensures forall n: nat | EndsAfter(FreelistLinks(freeHeap), FreelistSpot(qs.fs.top), n) && vi.Some? ::
      1 <= qs.fs.elementCount < WORD && vi.value.min <= vi.value.max < qs.fs.elementCount && n < WORD ==>
        var least, most := qs.fs.elementCount - 1 - vi.value.max, qs.fs.elementCount - 1 - vi.value.min;
        && (freelist == OK <==> least <= n <= most)
        && (freelist == AdditionalElements <==> n > most)
        && (freelist == MissingElements <==> n < least)
  {
    hide Cyclic, EndsAfter, FreelistLinks, QueueLinks, Judge, Wrap;
    ghost var nx, x := QueueLinks(heap), QueueSpot(qs.deq);
    EndsOnce(nx, x);
    queue := OK;
    var loop := QueueLoop(qs.deq, heap);
    if loop {
      queue := Loop;
    }
    if queue == OK && vi.Some? {
      CyclicOrEnds(nx, x);
      ghost var n: nat :| EndsAfter(nx, x, n);
      var count := QueueCount(qs.deq, heap, n);
      if count < vi.value.min {
        queue := MissingElements;
      }
      if count > vi.value.max {
        queue := AdditionalElements;
      }
    }
    if vi.Some? {
      forall n: nat | n < WORD {
        JudgesComplement(qs.fs.elementCount, n, vi.value);
      }
      var total := Wrap(qs.fs.elementCount - 1);
      var range := Range(Wrap(total - vi.value.max), Wrap(total - vi.value.min));
      freelist := ValidateFreelist(qs.fs, Some(range), freeHeap);
    } else {
      freelist := ValidateFreelist(qs.fs, None, freeHeap);
    }
  }

  // ---------------------------------------------------- a quiescent, intact queue

  lemma {:induction false} FreelistWalk(fs: FreelistState, heap: set<FreelistElement>, k: nat)
    requires fs.Valid() && k <= |fs.stack| && forall n | n in fs.stack :: n in heap
    ensures Walk(FreelistLinks(heap), FreelistSpot(fs.top), k) == if k < |fs.stack| then On(fs.stack[k]) else End
  {
    if k > 0 {
      FreelistWalk(fs, heap, k - 1);
    }
  }

  lemma {:induction false} QueueWalk(chain: seq<QueueElement>, heap: set<QueueElement>, k: nat)
    requires Linked(chain) && k <= |chain| && forall n | n in chain :: n in heap
    ensures Walk(QueueLinks(heap), QueueSpot(chain[0]), k) == if k < |chain| then On(chain[k]) else End
  {
    if k > 0 {
      QueueWalk(chain, heap, k - 1);
    }
  }

  lemma FreelistEnds(fs: FreelistState) returns (heap: set<FreelistElement>)
    requires fs.Valid()
    ensures FreelistHeap(heap) && (fs.top != null ==> fs.top in heap)
    ensures EndsAfter(FreelistLinks(heap), FreelistSpot(fs.top), |fs.stack|)
  {
    heap := set n | n in fs.stack;
    forall k: nat | k <= |fs.stack|
      ensures Walk(FreelistLinks(heap), FreelistSpot(fs.top), k) == if k < |fs.stack| then On(fs.stack[k]) else End
    {
      FreelistWalk(fs, heap, k);
    }
    forall n | n in heap && n.next != null ensures n.next in heap {
      var i :| 0 <= i < |fs.stack| && fs.stack[i] == n;
      var j := i + 1;
      assert n.next == fs.stack[j];
    }
  }

  lemma QueueEnds(chain: seq<QueueElement>) returns (heap: set<QueueElement>)
    requires Linked(chain)
    ensures QueueHeap(heap) && chain[0] in heap
    ensures EndsAfter(QueueLinks(heap), QueueSpot(chain[0]), |chain|)
  {
    heap := set n | n in chain;
    forall k: nat | k <= |chain|
      ensures Walk(QueueLinks(heap), QueueSpot(chain[0]), k) == if k < |chain| then On(chain[k]) else End
    {
      QueueWalk(chain, heap, k);
    }
    forall n | n in heap && n.next != null ensures n.next in heap {
      var i :| 0 <= i < |chain| && chain[i] == n;
      var j := i + 1;
      assert n.next == chain[j];
    }
  }

  /** The two ranges agree: with `free` elements on the freelist and `held` in the queue out
      of `total`, one of them the dummy. */
  lemma RangesAgree(total: nat, held: nat, free: nat, range: Range)
    requires held + free + 1 == total < WORD && range.min < WORD && range.max < WORD
    ensures Judge(held, range) == OK && Judge(free, Complement(total, range)) == OK
      <==> range.min <= held <= range.max <= total - 1
  {
  }

  /** Checking an intact queue of `total` elements finds no loop, and finds both structures
      valid exactly when the number of values is in the range and the range is possible. */
  method ValidateIntact(qs: QueueState, vi: Option<Range>) returns (queue: Validity, freelist: Validity)
    requires qs.Valid() && qs.fs.elementCount < WORD
    requires vi.Some? ==> vi.value.min < WORD && vi.value.max < WORD
    ensures queue != Loop && freelist != Loop
    ensures vi == None ==> queue == freelist == OK
    ensures vi.Some? ==> (queue == freelist == OK
      <==> vi.value.min <= |qs.Contents()| <= vi.value.max <= qs.fs.elementCount - 1)
  {
    ghost var heap := QueueEnds(qs.chain);
    ghost var freeHeap := FreelistEnds(qs.fs);
    queue, freelist := ValidateQueue(qs, vi, heap, freeHeap);
    if Cyclic(QueueLinks(heap), QueueSpot(qs.deq)) {
      CyclicNeverEnds(QueueLinks(heap), QueueSpot(qs.deq), |qs.chain|);
    }
    if Cyclic(FreelistLinks(freeHeap), FreelistSpot(qs.fs.top)) {
      CyclicNeverEnds(FreelistLinks(freeHeap), FreelistSpot(qs.fs.top), |qs.fs.stack|);
    }
    if vi.Some? {
      RangesAgree(qs.fs.elementCount, |qs.Contents()|, |qs.fs.stack|, vi.value);
    }
  }
}
