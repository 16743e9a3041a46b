/** Every element is at every instant in exactly one place, and none is ever lost. */
module Conservation {
  import opened Words
  import opened Machine
  import opened MachineInvariant
  import opened MachineOrder
  import opened Fifo
  import opened Values
  import F = Freelist
  import Q = Queue
  import I = QueueInvariant

  // --------------------------------------------------------------- counting sets

  lemma {:induction false} SameSize<A, B>(a: set<A>, b: set<B>, f: map<A, B>)
    requires f.Keys == a && f.Values == b
    requires forall x, y | x in a && y in a && x != y :: f[x] != f[y]
    ensures |a| == |b|
  {
    if a == {} {
      assert b == {};
    } else {
      var x :| x in a;
      var f' := f - {x};
      assert f'.Values == b - {f[x]} by {
        forall y | y in b - {f[x]} ensures y in f'.Values {
          var z :| z in f && f[z] == y;
          assert z in f' && f'[z] == y;
        }
      }
      SameSize(a - {x}, b - {f[x]}, f');
    }
  }

  /** A sequence without duplicates has as many entries as elements. */
  lemma {:induction false} SetSize<T>(s: seq<T>, b: set<T>)
    requires forall i, j | 0 <= i < j < |s| :: s[i] != s[j]
    requires forall x :: x in s <==> x in b
    ensures |b| == |s|
    decreases |s|
  {
    if s == [] {
      assert b == {};
    } else {
      var x := s[|s| - 1];
      var r := s[..|s| - 1];
      forall y ensures y in r <==> y in b - {x} {
        assert y in s <==> y in r || y == x;
      }
      SetSize(r, b - {x});
    }
  }

  // -------------------------------------------------------------------- places

  ghost function FreeSet(s: System): set<nat> {
    set e | e in s.fl.place && s.fl.place[e].Free?
  }

  /** Elements in the chain or behind something. */
  ghost function NodeSet(s: System): set<nat> {
    set e | e in s.fl.place && (s.fl.place[e].Live? || s.fl.place[e].Behind?)
  }

  ghost function HeldSet(s: System): set<nat> {
    set e | e in s.fl.place && s.fl.place[e].Held?
  }

  ghost function Holders(s: System): set<Tid> {
    set t | t in s.threads && Holds(s.threads[t])
  }

  lemma FreeCount(s: System)
    requires Inv(s)
    ensures |FreeSet(s)| == |s.fl.stack|
    ensures forall e :: e in FreeSet(s) <==> exists i :: 0 <= i < |s.fl.stack| && s.fl.stack[i].ptr == e
  {
    assert F.Placed(s.fl.place, s.fl.stack);
    hide Inv, F.Placed;
    var ptrs := FreePointers(s.fl.place, s.fl.stack);
    SetSize(ptrs, FreeSet(s));
    forall e ensures e in FreeSet(s) <==> exists i :: 0 <= i < |s.fl.stack| && s.fl.stack[i].ptr == e {
      assert e in FreeSet(s) <==> e in ptrs;
    }
  }

  /** The elements of the stack, each once, are the free ones. */
  lemma FreePointers(place: map<nat, Place>, stack: seq<Pair>) returns (ptrs: seq<nat>)
    requires F.Placed(place, stack)
    ensures |ptrs| == |stack| && forall i | 0 <= i < |stack| :: ptrs[i] == stack[i].ptr
    ensures forall i, j | 0 <= i < j < |ptrs| :: ptrs[i] != ptrs[j]
    ensures forall e :: e in ptrs <==> e in place && place[e].Free?
  {
    ptrs := seq(|stack|, i requires 0 <= i < |stack| => stack[i].ptr);
    forall e | e in place && place[e].Free? ensures e in ptrs {
      var i :| 0 <= i < |stack| && stack[i] == Pair(e, place[e].ctr);
      assert ptrs[i] == e;
    }
    forall e | e in ptrs ensures e in place && place[e].Free? {
      var i :| 0 <= i < |ptrs| && ptrs[i] == e;
      assert F.OnStack(place, stack[i]);
    }
  }

  lemma ElementHeld(fl: F.Freelist, q: Q.Queue, th: Thread, t: Tid)
    requires ThreadInv(fl, q, th, t) && Holds(th)
    ensures Element(th) in fl.place && fl.place[Element(th)] == Held(t)
  {
    hide Q.Knows, F.Knows, Nested, Q.Clear, Q.Bears;
  }

  lemma HeldCount(s: System)
    requires Inv(s)
    ensures |HeldSet(s)| == |Holders(s)|
    ensures forall t | t in Holders(s) :: s.fl.place[Element(s.threads[t])] == Held(t)
  {
    hide F.Valid, Q.Valid, ThreadInv, Holds, Element;
    forall t | t in Holders(s)
      ensures Element(s.threads[t]) in s.fl.place && s.fl.place[Element(s.threads[t])] == Held(t)
    {
      ElementHeld(s.fl, s.q, s.threads[t], t);
    }
    var f := map t | t in Holders(s) :: Element(s.threads[t]);
    assert f.Values == HeldSet(s) by {
      forall e | e in HeldSet(s) ensures e in f.Values {
        assert f[s.fl.place[e].owner] == e;
      }
    }
    SameSize(Holders(s), HeldSet(s), f);
  }

  /** Every created element is on the freelist, or in the chain from `deq`, dummy included, or
      waits behind the element of an unfinished enqueue, or is held by exactly one thread;
      the four counts add up to the elements created. */
  lemma EveryElementOnce(s: System) returns (c: seq<nat>, b: seq<nat>)
    requires Inv(s)
    ensures IsChain(s.q.heap, s.q.deq.ptr, c) && forall x | x in b :: Waits(s, x)
    ensures FreeSet(s) !! NodeSet(s) !! HeldSet(s) && FreeSet(s) + NodeSet(s) + HeldSet(s) == s.q.heap.Keys
    ensures forall x :: x in NodeSet(s) <==> x in c + b
    ensures |s.q.heap| == |s.fl.stack| + (|c| + |b|) + |Holders(s)|
  {
    PlacesAreElements(s);
    FreeCount(s);
    HeldCount(s);
    hide Inv, Holders, Holds, Element, IsChain, Waits;
    c, b := StateKeeps(s);
    SetSize(c + b, NodeSet(s));
    PlacesSplit(s);
    Add(FreeSet(s), NodeSet(s), HeldSet(s), s.q.heap.Keys);
    hide FreeSet, NodeSet, HeldSet;
  }

  lemma PlacesSplit(s: System)
    requires s.fl.place.Keys == s.q.heap.Keys
    ensures FreeSet(s) !! NodeSet(s) !! HeldSet(s) && FreeSet(s) + NodeSet(s) + HeldSet(s) == s.q.heap.Keys
  {
  }

  lemma PlacesAreElements(s: System)
    requires Inv(s)
    ensures s.fl.place.Keys == s.q.heap.Keys
  {
  }

  lemma Add(a: set<nat>, b: set<nat>, c: set<nat>, u: set<nat>)
    requires a !! b !! c && a + b + c == u
    ensures |u| == |a| + |b| + |c|
  {
    assert |a + b| == |a| + |b|;
    assert |(a + b) + c| == |a + b| + |c|;
  }

  /** `element_count` is the number of elements created.  Only an allocation by a
      guaranteed enqueue changes it, by one. */
  ghost predicate CountIsCreated(s: System) {
    s.fl.count == |s.q.heap|
  }

  lemma LinkTarget(q: Q.Queue, l: Q.Local)
    requires Q.Knows(q, l) && Q.LinkFires(q, l)
    ensures l.enq.ptr in q.heap
  {
  }

  lemma StepKeepsCreated(q: Q.Queue, place: map<nat, Place>, l: Q.Local, t: Tid)
    requires I.Ready(q, place, l, t)
    ensures Q.Step(q, l, place).heap.Keys == q.heap.Keys
  {
    hide Q.Valid, Q.EnqKnows, Q.DeqKnows, Q.Step, Q.StepPlace;
    if I.Writes(l.pc) {
      I.WriteStep(q, place, l, t);
    } else if Q.LinkFires(q, l) {
      I.LinkStep(q, place, l, t);
      LinkTarget(q, l);
    } else if I.Swings(l.pc) && q.enq == l.enq {
      I.SwingStep(q, place, l, t);
    } else if l.pc == Q.DeqSwap && q.deq == l.deq {
      I.HeadStep(q, place, l, t);
    } else {
      I.QuietStep(q, place, l, t);
    }
  }

  lemma ActCount(fl: F.Freelist, q: Q.Queue, th: Thread, lab: Label)
    requires Q.Valid(q, fl.place) && ThreadInv(fl, q, th, lab.t) && fl.count == |q.heap|
    ensures var e := Act(fl, q, th, lab);
      && e.fl.count == |e.q.heap|
      && (e.fl.count == fl.count
          || (th.q.pc == Q.Create && th.q.op == Q.GuaranteedEnqueue && e.fl.count == fl.count + 1))
  {
    hide Q.Valid, Q.Owns, F.Knows, Q.Step, Q.StepPlace, Q.StepLocal, F.StepFrame;
    if InQueue(th.q.pc) {
      StepKeepsCreated(q, fl.place, th.q, lab.t);
      var e := Act(fl, q, th, lab);
      assert |e.q.heap.Keys| == |e.q.heap| && |q.heap.Keys| == |q.heap|;
    }
  }

  /** The number of elements created changes only when an allocation succeeds. */
  lemma NextKeepsCount(s: System, lab: Label)
    requires Inv(s) && CountIsCreated(s)
    ensures CountIsCreated(Next(s, lab))
    ensures Next(s, lab).fl.count != s.fl.count ==>
      lab.t in s.threads && s.threads[lab.t].q.op == Q.GuaranteedEnqueue && Next(s, lab).fl.count == s.fl.count + 1
  {
    if lab.t in s.threads {
      hide Q.Valid, F.Valid, ThreadInv, Act;
      ActCount(s.fl, s.q, s.threads[lab.t], lab);
    }
  }

  lemma {:induction false} AddressCount(n: nat)
    ensures |Addresses(n)| == n + 1
  {
    if n > 0 {
      AddressCount(n - 1);
    }
  }

  lemma InitCount(s: System, n: nat)
    requires Init(s, n)
    ensures CountIsCreated(s) && s.fl.count == n + 1
  {
    AddressCount(n);
    assert s.q.heap.Keys == Addresses(n);
  }

  lemma {:induction false} RunKeepsCount(s: System, labels: seq<Label>, i: nat)
    requires Inv(s) && CountIsCreated(s) && i <= |labels|
    ensures CountIsCreated(Before(s, labels, i)) && Before(s, labels, i).fl.count >= s.fl.count
  {
    hide Inv, CountIsCreated, Next;
    if i > 0 {
      RunKeepsInv(s, labels, i - 1);
      RunKeepsCount(s, labels, i - 1);
      RunStep(s, labels, i - 1);
      NextKeepsCount(Before(s, labels, i - 1), labels[i - 1]);
    }
  }

  /** At every instant of every schedule, the elements on the freelist, those in the chain
      from `deq`, those that wait behind an unfinished enqueue and those held by a thread add
      up to the elements created, which are at least the `n + 1` of queue_new. */
  lemma ConservedThroughout(s: System, n: nat, labels: seq<Label>, i: nat) returns (c: seq<nat>, b: seq<nat>)
    requires Init(s, n) && i <= |labels|
    ensures var s' := Before(s, labels, i);
      && IsChain(s'.q.heap, s'.q.deq.ptr, c) && (forall x | x in b :: Waits(s', x))
      && s'.fl.count == |s'.fl.stack| + |c| + |b| + |Holders(s')|
      && s'.fl.count >= n + 1
  {
    InitInv(s, n);
    InitCount(s, n);
    hide Init, Inv, Holders, Before, IsChain, Waits;
    RunKeepsInv(s, labels, i);
    RunKeepsCount(s, labels, i);
    c, b := EveryElementOnce(Before(s, labels, i));
  }
}
