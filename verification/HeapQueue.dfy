/** The queue as sequential code on real objects: what its calls do when no other thread
    runs.  A queue built for `n` elements is a bounded sequence of at most `n` values. */
module HeapQueue {
  import opened Words
  import opened HeapFreelist

  /** Consecutive nodes are linked, the last one to NULL. */
  ghost predicate Linked(chain: seq<QueueElement>)
    reads chain
  {
    && 0 < |chain| && Distinct(chain)
    && (forall i, j | 0 <= i && j == i + 1 && j < |chain| :: chain[i].next == chain[j])
    && chain[|chain| - 1].next == null
  }

  /** Every node of the chain knows its freelist element, which is not on the freelist. */
  ghost predicate Homed(chain: seq<QueueElement>, stack: seq<FreelistElement>)
    reads chain, stack, set e | e in chain :: e.fe
  {
    && (forall i | 0 <= i < |chain| :: chain[i].fe != null && chain[i].fe.userData == chain[i] && chain[i].fe !in stack)
    && (forall i, j | 0 <= i < |stack| && 0 <= j < |chain| :: stack[i].userData != chain[j])
  }

  /** The freelist elements of the nodes of a chain. */
  ghost function Fes(chain: seq<QueueElement>): seq<FreelistElement?>
    reads chain
  {
    if chain == [] then [] else [chain[0].fe] + Fes(chain[1..])
  }

  lemma LinkedTail(chain: seq<QueueElement>)
    requires Linked(chain) && |chain| >= 2
    ensures Linked(chain[1..]) && chain[0] !in chain[1..]
  {
    var rest := chain[1..];
    assert forall i | 0 <= i < |rest| :: rest[i] == chain[i + 1];
  }

  /** Nothing but `gone` has left. */
  ghost predicate Shed(fes: seq<FreelistElement?>, gone: FreelistElement?, fes': seq<FreelistElement?>) {
    forall f | f in fes :: f == gone || f in fes'
  }

  lemma FesTail(chain: seq<QueueElement>)
    requires |chain| > 0
    ensures Shed(Fes(chain), chain[0].fe, Fes(chain[1..]))
  {
  }

  /** No element has been lost: each is still on the freelist or in the chain. */
  ghost predicate Kept(stack: seq<FreelistElement>, fes: seq<FreelistElement?>,
                       stack': seq<FreelistElement>, fes': seq<FreelistElement?>) {
    && (forall f | f in stack :: f in stack')
    && (forall f | f in fes :: f in stack' || f in fes')
  }

  lemma KeptByNothing(stack: seq<FreelistElement>, fes: seq<FreelistElement?>)
    ensures Kept(stack, fes, stack, fes)
  {
  }

  lemma HomedTail(chain: seq<QueueElement>, stack: seq<FreelistElement>)
    requires Homed(chain, stack) && |chain| >= 2
    ensures Homed(chain[1..], stack)
  {
    var rest := chain[1..];
    assert forall i | 0 <= i < |rest| :: rest[i] == chain[i + 1];
  }

  /** The link swap, on the last node of a chain. */
  method Hook(end: QueueElement, qe: QueueElement, ctr: nat, ghost chain: seq<QueueElement>)
    requires Linked(chain) && end == chain[|chain| - 1] && qe !in chain && qe.next == null
    modifies end`next, end`nextCtr
    ensures Linked(chain + [qe]) && end.next == qe
  {
    end.next, end.nextCtr := qe, ctr;
    ghost var all := chain + [qe];
    assert forall i | 0 <= i < |chain| - 1 :: chain[i] != end;
    forall i, j | 0 <= i && j == i + 1 && j < |all| ensures all[i].next == all[j] {
      assert j < |chain| ==> old(chain[i].next) == chain[j];
    }
  }

  class QueueState {
    var enq: QueueElement
    var enqCtr: nat
    var deq: QueueElement
    var deqCtr: nat
    var aba: nat
    var fs: FreelistState
    /** The nodes from the dummy to the last one. */
    ghost var chain: seq<QueueElement>

    /** `enq` points at the last node or at the one before it. */
    ghost predicate Ends()
      reads this
    {
      && 0 < |chain| && deq == chain[0]
      && (enq == chain[|chain| - 1] || (|chain| >= 2 && enq == chain[|chain| - 2]))
    }

    /** All objects that belong to the queue. */
    ghost var Repr: set<object>

    ghost predicate Contained()
      reads this, Repr
    {
      && this in Repr && fs in Repr && fs.hasInit
      && (forall i | 0 <= i < |fs.stack| ::
            fs.stack[i] in Repr && fs.stack[i].userData != null && fs.stack[i].userData in Repr)
      && (forall i | 0 <= i < |chain| :: chain[i] in Repr && chain[i].fe != null && chain[i].fe in Repr)
    }

    /** `outside` elements have been taken off the freelist and are not in the chain. */
    ghost predicate Well(outside: nat)
      reads this, Repr
    {
      && Contained()
      && fs.Valid() && Paired(fs.stack)
      && Ends() && Linked(chain) && Homed(chain, fs.stack)
      && fs.elementCount == |fs.stack| + |chain| + outside
    }

    ghost predicate Valid()
      reads this, Repr
    {
      Well(0)
    }

    ghost function Contents(): (s: seq<Value>)
      reads this, chain
      ensures |chain| > 0 ==> |s| == |chain| - 1
    {
      if chain == [] then []
      else seq(|chain| - 1, i requires 0 <= i < |chain| - 1 reads this, chain => chain[i + 1].data)
    }

    /** A private element, ready to be linked. */
    ghost predicate Outside(qe: QueueElement)
      reads this, fs, fs.stack, qe, qe.fe
    {
      && qe !in chain && qe.next == null && qe in Repr
      && qe.fe != null && qe.fe in Repr && qe.fe.userData == qe && qe.fe !in fs.stack
      && (forall i | 0 <= i < |fs.stack| :: fs.stack[i].userData != qe)
    }

    /** queue_new, once the freelist exists: its top element becomes the dummy.  The
        counters of `enq` and `deq` are not initialised, so they are any numbers. */
    constructor (freelist: FreelistState, dummy: FreelistElement, enqCtr: nat, deqCtr: nat, ghost pool: set<object>)
      requires freelist.Valid() && Paired(freelist.stack) && dummy !in freelist.stack && dummy.userData != null
      requires forall i | 0 <= i < |freelist.stack| :: freelist.stack[i].userData != dummy.userData
      requires freelist.elementCount == |freelist.stack| + 1 && freelist.hasInit
      requires freelist in pool && dummy in pool && dummy.userData in pool
      requires forall i | 0 <= i < |freelist.stack| :: freelist.stack[i] in pool && freelist.stack[i].userData in pool
      modifies dummy.userData
      ensures Valid() && fs == freelist && Repr == pool + {this} && Contents() == []
      ensures enq == deq == dummy.userData && deq.nextCtr == 2 && deq.next == null && deq.data == NULL
      ensures deq.fe == dummy
      ensures aba == 0 && this.enqCtr == enqCtr && this.deqCtr == deqCtr
    {
      var qe := dummy.userData;
      this.enqCtr, this.deqCtr := enqCtr, deqCtr;
      enq, deq := qe, qe;
      aba := 0;
      fs := freelist;
      chain := [qe];
      Repr := pool + {this};
      new;
      qe.next, qe.nextCtr := null, 2;
      qe.fe, qe.data := dummy, NULL;
    }

    /** The link swap, on the last node of the queue. */
    method Append(end: QueueElement, qe: QueueElement, ctr: nat)
      requires Well(1) && Outside(qe) && end == enq == chain[|chain| - 1]
      modifies this`chain, end`next, end`nextCtr
      ensures Well(0) && chain == old(chain) + [qe] && end.next == qe
      ensures Contents() == old(Contents()) + [qe.data]
    {
      hide Paired, FreelistState.Valid, Linked;
      Hook(end, qe, ctr, chain);
      chain := chain + [qe];
    }

    /** Helping or finishing: `enq` moves on to the node after it. */
    method Swing(next: QueueElement)
      requires Ends() && Linked(chain) && enq.next == next
      modifies this`enq, this`enqCtr
      ensures Ends() && enq == next && next == chain[|chain| - 1] && next.next == null
      ensures forall n: nat :: old(Well(n)) ==> Well(n)
      ensures Contents() == old(Contents()) && enqCtr == old(enqCtr) + STRIDE
    {
      hide Homed, Paired, FreelistState.Valid;
      enq, enqCtr := next, enqCtr + STRIDE;
    }

    /** queue_internal_queue */
    method Link(qe: QueueElement)
      requires Well(1) && Outside(qe)
      modifies this`enq, this`enqCtr, this`chain, chain`next, chain`nextCtr
      ensures Well(0) && chain == old(chain) + [qe] && enq == qe
      ensures Contents() == old(Contents()) + [qe.data]
    {
      hide Homed, Paired, FreelistState.Valid, Contents, Contained;
      var linked := false;
      var localEnq, localCtr := enq, enqCtr;
      while !linked
        invariant !linked ==> Well(1) && Outside(qe) && chain == old(chain)
        invariant Contents() == if linked then old(Contents()) + [qe.data] else old(Contents())
        invariant linked ==> Well(0) && chain == old(chain) + [qe]
        invariant linked ==> enq == localEnq && enqCtr == localCtr && enq.next == qe
        decreases !linked, enq.next != null
      {
        localEnq, localCtr := enq, enqCtr;
        var next, nextCtr := localEnq.next, localEnq.nextCtr;
        if enq == localEnq && enqCtr == localCtr {
          if next == null {
            if localEnq.next == next && localEnq.nextCtr == nextCtr {
              Append(localEnq, qe, nextCtr + STRIDE);
              linked := true;
            }
          } else if enq == localEnq && enqCtr == localCtr {
            Swing(next);
          }
        }
      }
      if enq == localEnq && enqCtr == localCtr {
        Swing(qe);
      }
    }

    /** An element that has just been taken off the freelist or allocated. */
    ghost predicate Loose(fe: FreelistElement)
      reads this, fs, fs.stack, fe
    {
      && fe in Repr && fe !in fs.stack
      && fe.userData != null && fe.userData in Repr && fe.userData !in chain
      && (forall i | 0 <= i < |fs.stack| :: fs.stack[i].userData != fe.userData)
    }

    /** queue_internal_init_element */
    method InitElement(fe: FreelistElement, v: Value) returns (qe: QueueElement)
      requires Well(1) && Loose(fe)
      modifies this`aba, fe.userData
      ensures Well(1) && Outside(qe) && qe.data == v && Contents() == old(Contents())
      ensures qe == fe.userData && qe.fe == fe && qe.nextCtr == aba == old(aba) + 2
    {
      hide Paired, FreelistState.Valid, Linked, Homed;
      qe := fe.userData;
      aba := aba + 1;
      qe.next := null;
      aba := aba + 1;
      qe.nextCtr := aba;
      qe.fe := fe;
      qe.data := v;
    }

    /** queue_internal_new_element_from_freelist: takes an element off the freelist and
        initialises its queue element. */
    method AcquireElement(v: Value) returns (qe: QueueElement?)
      requires Valid()
      modifies Repr
      ensures fs == old(fs) && chain == old(chain) && Repr == old(Repr) && enq == old(enq)
      ensures fs.elementCount == old(fs.elementCount)
      ensures Contents() == old(Contents())
      ensures old(fs.stack) == [] ==> qe == null && Valid()
      ensures old(fs.stack) != [] ==> qe != null && Well(1) && Outside(qe) && qe.data == v
    {
      hide FreelistState.Valid, Linked;
      var fe := fs.Pop();
      if fe == null {
        return null;
      }
      assert fe == old(fs.stack)[0];
      assert Well(1) && Loose(fe);
      hide Homed, Paired, Contained, Loose;
      qe := InitElement(fe, v);
    }

    /** queue_enqueue: fails exactly when the freelist is exhausted. */
    method Enqueue(v: Value) returns (rv: nat)
      requires Valid()
      modifies Repr
      ensures Valid() && Repr == old(Repr) && fs == old(fs) && fs.elementCount == old(fs.elementCount)
      ensures rv == if |old(Contents())| < fs.elementCount - 1 then 1 else 0
      ensures Contents() == if rv == 1 then old(Contents()) + [v] else old(Contents())
    {
      hide Homed, Paired, Linked, FreelistState.Valid, Ends;
      var qe := AcquireElement(v);
      if qe == null {
        return 0;
      }
      Link(qe);
      return 1;
    }

    /** queue_internal_guaranteed_new_element_from_freelist */
    method CreateElement(v: Value, grant: Grant) returns (qe: QueueElement?)
      requires Valid()
      modifies this`aba, this`Repr, fs`elementCount
      ensures fresh(Repr - old(Repr)) && Contents() == old(Contents())
      ensures !grant.Full() ==> qe == null && Valid() && fs.elementCount == old(fs.elementCount)
      ensures grant.Full() ==> qe != null && Well(1) && Outside(qe) && qe.data == v
      ensures grant.Full() ==> fs.elementCount == old(fs.elementCount) + 1
    {
      hide FreelistState.Valid, Linked, Paired, Homed;
      var fe := fs.NewElement(grant);
      if fe == null {
        return null;
      }
      Repr := Repr + {fe, fe.userData};
      assert Well(1) && Loose(fe);
      hide Contained, Loose;
      qe := InitElement(fe, v);
    }

    /** queue_guaranteed_enqueue: allocates an element; fails exactly when the allocator does. */
    method GuaranteedEnqueue(v: Value, grant: Grant) returns (rv: nat)
      requires Valid()
      modifies Repr
      ensures Valid() && fresh(Repr - old(Repr)) && fs == old(fs)
      ensures rv == if grant.Full() then 1 else 0
      ensures fs.elementCount == old(fs.elementCount) + rv
      ensures Contents() == if rv == 1 then old(Contents()) + [v] else old(Contents())
    {
      hide Homed, Paired, Linked, FreelistState.Valid, Contents, Ends;
      var qe := CreateElement(v, grant);
      if qe == null {
        return 0;
      }
      Link(qe);
      return 1;
    }

    /** A node that has left the chain and is not on the freelist. */
    ghost predicate Orphan(e: QueueElement)
      reads this, fs, fs.stack, e, e.fe
    {
      && e !in chain && e in Repr
      && e.fe != null && e.fe in Repr && e.fe !in fs.stack && e.fe.userData == e
      && (forall i | 0 <= i < |fs.stack| :: fs.stack[i].userData != e)
    }

    lemma OrphanInside(e: QueueElement)
      requires Orphan(e)
      ensures e.fe != null && e.fe in Repr
    {
    }

    /** The head swap: the dummy leaves the chain. */
    method Unlink(next: QueueElement)
      requires Valid() && |chain| >= 2 && enq != deq && next == chain[1]
      modifies this`deq, this`deqCtr, this`chain
      ensures Well(1) && deq == next && chain == old(chain)[1..] && Orphan(old(deq)) && deqCtr == old(deqCtr) + STRIDE
      ensures Contents() == old(Contents())[1..] && Shed(old(Fes(chain)), old(deq).fe, Fes(chain))
    {
      FesTail(chain);
      hide Fes, Shed;
      LinkedTail(chain);
      HomedTail(chain, fs.stack);
      deq, deqCtr := next, deqCtr + STRIDE;
      chain := chain[1..];
      hide Paired, FreelistState.Valid, Linked;
      assert Orphan(old(deq));
      hide Homed;
      assert forall i | 0 <= i < |chain| :: chain[i] == old(chain)[i + 1];
    }

    /** Giving an unlinked element back to the freelist. */
    method Release(e: QueueElement, ghost fes: seq<FreelistElement?>)
      requires Well(1) && Orphan(e) && Shed(fes, e.fe, Fes(chain))
      modifies fs, e.fe`next, e.fe`nextCtr
      ensures Valid() && fs.stack == [e.fe] + old(fs.stack) && fs.elementCount == old(fs.elementCount)
      ensures Contents() == old(Contents()) && Kept(old(fs.stack), fes, fs.stack, Fes(chain))
    {
      hide FreelistState.Valid, Linked, Fes;
      fs.Push(e.fe);
      assert Homed(chain, fs.stack);
      assert Paired(fs.stack);
    }

    lemma HeadFacts()
      requires Valid()
      ensures deq in Repr && enq in Repr && fs in Repr && this in Repr && deq.fe != null && deq.fe in Repr
      ensures Contents() == [] <==> deq.next == null
      ensures deq.next != null ==>
        |chain| >= 2 && deq.next == chain[1] && chain[1] in Repr && chain[1].data == Contents()[0]
      ensures enq != deq ==> |chain| >= 2
      ensures enq == deq && deq.next != null ==> enq.next != null
    {
      hide Homed, Paired, FreelistState.Valid;
      if |chain| >= 2 {
        assert chain[0].next == chain[1];
      }
    }

    /** The retry loop of queue_dequeue.  `taken` is the old dummy, if there was a value. */
    method Take() returns (rv: nat, v: Value, taken: QueueElement)
      requires Valid()
      modifies this`enq, this`enqCtr, this`deq, this`deqCtr, this`chain
      ensures rv == if old(Contents()) == [] then 0 else 1
      ensures rv == 0 ==> Valid() && v == NULL && Contents() == old(Contents())
      ensures rv == 1 ==> Well(1) && Orphan(taken) && v == old(Contents())[0] && Contents() == old(Contents())[1..]
      ensures rv == 0 ==> chain == old(chain)
      ensures rv == 1 ==> taken == old(deq) && Shed(old(Fes(chain)), taken.fe, Fes(chain))
    {
      hide Homed, Paired, FreelistState.Valid, Linked, Contained, Orphan, Fes, Shed, Contents, Ends;
      var finished := false;
      rv, v, taken := 1, NULL, deq;
      while !finished
        invariant !finished ==> Valid() && rv == 1 && Contents() == old(Contents())
        invariant if finished && rv == 1 then |old(chain)| > 1 && chain == old(chain)[1..] && taken == old(deq)
                  else chain == old(chain) && deq == old(deq)
        invariant finished && rv == 1 ==> Shed(old(Fes(chain)), taken.fe, Fes(chain))
        invariant finished ==> rv == if old(Contents()) == [] then 0 else 1
        invariant finished && rv == 0 ==> Valid() && v == NULL && Contents() == old(Contents())
        invariant finished && rv == 1 ==> Well(1) && Orphan(taken)
        invariant finished && rv == 1 ==> v == old(Contents())[0] && Contents() == old(Contents())[1..]
        decreases !finished, enq.next != null
      {
        HeadFacts();
        taken := deq;
        var localDeqCtr, localEnq, localEnqCtr := deqCtr, enq, enqCtr;
        var next := taken.next;
        if taken == deq && localDeqCtr == deqCtr {
          if localEnq == taken && next == null {
            rv, v, finished := 0, NULL, true;
          } else if localEnq == taken {
            if enq == localEnq && enqCtr == localEnqCtr {
              Swing(next);
            }
          } else {
            v := next.data;
            if deq == taken && deqCtr == localDeqCtr {
              Unlink(next);
              finished := true;
            }
          }
        }
      }
    }

    /** queue_dequeue: fails exactly when the queue is empty. */
    method Dequeue() returns (rv: nat, v: Value)
      requires Valid()
      modifies this`enq, this`enqCtr, this`deq, this`deqCtr, this`chain, fs, deq.fe`next, deq.fe`nextCtr
      ensures Valid() && Repr == old(Repr) && fs == old(fs) && fs.elementCount == old(fs.elementCount)
      ensures rv == if old(Contents()) == [] then 0 else 1
      ensures rv == 0 ==> v == NULL && Contents() == old(Contents())
      ensures rv == 1 ==> v == old(Contents())[0] && Contents() == old(Contents())[1..]
      ensures Kept(old(fs.stack), old(Fes(chain)), fs.stack, Fes(chain))
    {
      hide *;
      var taken;
      rv, v, taken := Take();
      if rv == 1 {
        OrphanInside(taken);
        Release(taken, old(Fes(chain)));
      } else {
        KeptByNothing(fs.stack, Fes(chain));
      }
    }
  }

  /** The top element and its queue element have nothing to do with the rest. */
  lemma TopLeaves(stack: seq<FreelistElement>)
    requires Distinct(stack) && Paired(stack) && stack != []
    ensures Paired(stack[1..]) && stack[0] !in stack[1..] && stack[0].userData != null
    ensures forall f | f in stack[1..] :: f in stack && f.userData != stack[0].userData && f.userData != null
  {
    var rest := stack[1..];
    assert forall i | 0 <= i < |rest| :: rest[i] == stack[i + 1];
  }

  /** The words of a new queue of `n` elements.  Element number `n - i` is at place `i` of the
      freelist, and the dummy is element number `n + 1`, which was pushed last. */
  ghost predicate Built(qs: QueueState, n: nat)
    reads qs, qs.deq, qs.deq.fe, qs.fs, qs.fs.stack
  {
    && qs.aba == 0 && qs.enq == qs.deq && qs.deq.next == null && qs.deq.nextCtr == 2 && qs.deq.data == NULL
    && qs.deq.fe != null && qs.deq.fe.next == qs.fs.top && qs.deq.fe.nextCtr == n
    && qs.fs.aba == n + 1 && qs.fs.topCtr == n && |qs.fs.stack| == n && qs.fs.elementCount == n + 1
    && forall i | 0 <= i < n :: qs.fs.stack[i].nextCtr == n - 1 - i
  }

  /** queue_new.  `grants` says which allocations of elements succeed. */
  method NewQueue(n: nat, grants: seq<Grant>, enqCtr: nat, deqCtr: nat) returns (qs: QueueState?)
    requires |grants| == n + 1
    ensures qs != null <==> forall i | 0 <= i <= n :: grants[i].Full()
    ensures qs != null ==>
      fresh(qs) && qs.Valid() && fresh(qs.Repr) && qs.Contents() == [] && qs.fs.elementCount == n + 1
    ensures qs != null ==> Built(qs, n) && qs.enqCtr == enqCtr && qs.deqCtr == deqCtr
  {
    var fs := NewFreelist(n + 1, grants);
    if fs == null {
      return null;
    }
    ghost var elements: set<object> := set i | 0 <= i < |fs.stack| :: fs.stack[i];
    ghost var partners: set<object> :=
      set i | 0 <= i < |fs.stack| && fs.stack[i].userData != null :: fs.stack[i].userData;
    ghost var pool := elements + partners + {fs};
    assert fresh(pool);
    hide FreelistState.Valid, New, Built;
    qs := OnFreelist(fs, enqCtr, deqCtr, pool);
  }

  /** The second half of queue_new: the dummy is taken from a new freelist. */
  method OnFreelist(fs: FreelistState, enqCtr: nat, deqCtr: nat, ghost pool: set<object>) returns (qs: QueueState)
    requires fs.Valid() && Paired(fs.stack) && fs.stack != [] && fs.elementCount == |fs.stack|
    requires fs.hasInit && fs.Numbered()
    requires fs in pool && forall f | f in fs.stack :: f in pool && f.userData in pool
    modifies fs, fs.stack[0].userData
    ensures fresh(qs) && qs.Valid() && qs.fs == fs && qs.Repr == pool + {qs} && qs.Contents() == []
    ensures fs.elementCount == old(fs.elementCount)
    ensures Built(qs, |old(fs.stack)| - 1) && qs.enqCtr == enqCtr && qs.deqCtr == deqCtr
  {
    TopLeaves(fs.stack);
    TopWords(fs);
    hide Paired, FreelistState.Valid, FreelistState.Numbered;
    var dummy := fs.Pop();
    qs := new QueueState(fs, dummy, enqCtr, deqCtr, pool);
  }

  /** The words of the top element. */
  lemma TopWords(fs: FreelistState)
    requires fs.Valid() && fs.Numbered() && fs.stack != []
    ensures var n := |fs.stack| - 1;
      && fs.stack[0].next == (if n > 0 then fs.stack[1] else null) && fs.stack[0].nextCtr == n && fs.aba == n + 1
      && (forall i | 0 <= i < n :: fs.stack[1..][i].nextCtr == n - 1 - i)
  {
    if |fs.stack| > 1 {
      var j := 1;
      assert fs.stack[0].next == fs.stack[j];
    }
  }

  // ------------------------------------------------- every sequence of calls

  datatype Call = Put(v: Value) | Get

  datatype Answer = Answer(rv: nat, v: Value)

  /** A bounded sequence: what each call answers and what it leaves. */
  function Reply(n: nat, s: seq<Value>, c: Call): (r: (Answer, seq<Value>))
    ensures |s| <= n ==> |r.1| <= n
  {
    match c
    case Put(v) => if |s| < n then (Answer(1, v), s + [v]) else (Answer(0, v), s)
    case Get => if s == [] then (Answer(0, NULL), s) else (Answer(1, s[0]), s[1..])
  }

  function Replies(n: nat, s: seq<Value>, calls: seq<Call>): seq<Answer> {
    if calls == [] then [] else
    Replies(n, s, calls[..|calls| - 1]) + [Reply(n, After(n, s, calls[..|calls| - 1]), calls[|calls| - 1]).0]
  }

  function After(n: nat, s: seq<Value>, calls: seq<Call>): seq<Value> {
    if calls == [] then s else Reply(n, After(n, s, calls[..|calls| - 1]), calls[|calls| - 1]).1
  }

  /** A queue built for `n` elements answers every sequence of calls as the bounded sequence does. */
  method Perform(qs: QueueState, n: nat, calls: seq<Call>) returns (answers: seq<Answer>)
    requires qs.Valid() && qs.fs.elementCount == n + 1
    modifies qs.Repr
    ensures qs.Valid()
    ensures answers == Replies(n, old(qs.Contents()), calls)
    ensures qs.Contents() == After(n, old(qs.Contents()), calls)
  {
    hide QueueState.Valid, QueueState.Contents, Replies, After;
    answers := [];
    RepliesNone(n, qs.Contents(), calls);
    for i := 0 to |calls|
      invariant qs.Valid() && qs.Repr == old(qs.Repr) && qs.fs.elementCount == n + 1
      invariant answers == Replies(n, old(qs.Contents()), calls[..i])
      invariant qs.Contents() == After(n, old(qs.Contents()), calls[..i])
    {
      RepliesOne(n, old(qs.Contents()), calls, i);
      match calls[i] {
        case Put(v) =>
          var rv := qs.Enqueue(v);
          answers := answers + [Answer(rv, v)];
        case Get =>
          qs.HeadFacts();
          var rv, v := qs.Dequeue();
          answers := answers + [Answer(rv, v)];
      }
    }
    assert calls[..|calls|] == calls;
  }

  lemma RepliesNone(n: nat, s: seq<Value>, calls: seq<Call>)
    ensures Replies(n, s, calls[..0]) == [] && After(n, s, calls[..0]) == s
  {
  }

  lemma RepliesOne(n: nat, s: seq<Value>, calls: seq<Call>, i: nat)
    requires i < |calls|
    ensures var r := Reply(n, After(n, s, calls[..i]), calls[i]);
      && Replies(n, s, calls[..i + 1]) == Replies(n, s, calls[..i]) + [r.0]
      && After(n, s, calls[..i + 1]) == r.1
  {
    assert calls[..i + 1][..i] == calls[..i];
  }

  // ------------------------------------------------------------------ deletion

  /** The drain loop of queue_delete: the user's delete function is called on every value
      in order, and all nodes but the last return to the freelist. */
  method Drain(qs: QueueState) returns (deleted: seq<Value>)
    requires qs.Valid()
    modifies qs.Repr
    ensures qs.Valid() && qs.Repr == old(qs.Repr) && qs.fs == old(qs.fs)
    ensures qs.fs.elementCount == old(qs.fs.elementCount)
    ensures deleted == old(qs.Contents()) && qs.Contents() == []
    ensures Kept(old(qs.fs.stack), old(Fes(qs.chain)), qs.fs.stack, Fes(qs.chain))
    ensures forall f: FreelistElement :: f in qs.Repr ==> f.userData == old(f.userData)
  {
    hide QueueState.Valid, QueueState.Contents, Fes;
    deleted := [];
    qs.HeadFacts();
    var rv, v := qs.Dequeue();
    while rv == 1
      invariant qs.Valid() && qs.Repr == old(qs.Repr) && qs.fs == old(qs.fs)
      invariant qs.fs.elementCount == old(qs.fs.elementCount)
      invariant rv == 0 || rv == 1
      invariant rv == 1 ==> deleted + [v] + qs.Contents() == old(qs.Contents())
      invariant rv == 0 ==> qs.Contents() == [] && deleted == old(qs.Contents())
      invariant Kept(old(qs.fs.stack), old(Fes(qs.chain)), qs.fs.stack, Fes(qs.chain))
      invariant forall f: FreelistElement :: f in qs.Repr ==> f.userData == old(f.userData)
      decreases |qs.Contents()|, rv
    {
      deleted := deleted + [v];
      qs.HeadFacts();
      rv, v := qs.Dequeue();
    }
  }

  /** A drained queue is a dummy on its own. */
  lemma Drained(qs: QueueState)
    requires qs.Valid() && qs.Contents() == []
    ensures qs.chain == [qs.enq] && Fes(qs.chain) == [qs.enq.fe]
    ensures qs.enq.fe != null && qs.enq.fe in qs.Repr && qs.fs in qs.Repr
    ensures qs.fs.Valid() && qs.enq.fe !in qs.fs.stack && Paired([qs.enq.fe] + qs.fs.stack)
    ensures qs.fs.elementCount == |qs.fs.stack| + 1 && forall f | f in qs.fs.stack :: f in qs.Repr
  {
    hide FreelistState.Valid, Linked;
    var s := [qs.enq.fe] + qs.fs.stack;
    assert forall i | 0 < i < |s| :: s[i] == qs.fs.stack[i - 1];
  }

  lemma {:induction false} FesHas(chain: seq<QueueElement>, e: QueueElement)
    requires e in chain
    ensures e.fe in Fes(chain)
  {
    if e != chain[0] {
      FesHas(chain[1..], e);
    }
  }

  /** Every node of the chain is the partner of a freelist element. */
  lemma Partners(qs: QueueState)
    requires qs.Valid()
    ensures forall e | e in qs.chain :: e.fe in Fes(qs.chain) && e.fe != null && e.fe in qs.Repr && e.fe.userData == e
  {
    hide FreelistState.Valid, Linked, Paired;
    forall e | e in qs.chain ensures e.fe in Fes(qs.chain) {
      FesHas(qs.chain, e);
    }
  }

  /** queue_delete: the calls of the user's delete function, and the elements freed. */
  method DeleteQueue(qs: QueueState)
    returns (deleted: seq<Value>, freed: seq<FreelistElement>, freedPairs: seq<QueueElement>)
    requires qs.Valid()
    modifies qs.Repr
    ensures deleted == old(qs.Contents())
    ensures |freed| == |freedPairs| == old(qs.fs.elementCount) && Distinct(freed) && Distinct(freedPairs)
    ensures forall f | f in old(qs.fs.stack) :: f in freed
    ensures forall f | f in old(Fes(qs.chain)) :: f in freed
    ensures forall i | 0 <= i < |freed| :: freed[i] in old(qs.Repr) && freedPairs[i] == old(freed[i].userData)
    ensures forall e | e in old(qs.chain) :: e in freedPairs
  {
    hide QueueState.Valid, QueueState.Contents, FreelistState.Valid, Fes;
    Partners(qs);
    ghost var fes := Fes(qs.chain);
    deleted := Drain(qs);
    Drained(qs);
    var fs, fe := qs.fs, qs.enq.fe;
    fs.Push(fe);
    assert Paired(fs.stack);
    hide Paired;
    freed, freedPairs := DeleteFreelist(fs);
    forall e | e in old(qs.chain) ensures e in freedPairs {
      assert old(e.fe) in fes;
      assert old(e.fe) in freed;
      var i :| 0 <= i < |freed| && freed[i] == old(e.fe);
      assert freedPairs[i] == e;
    }
  }
}
