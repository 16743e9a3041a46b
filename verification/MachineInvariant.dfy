/** The invariant of the whole machine holds after every schedule. */
module MachineInvariant {
  import opened Words
  import opened Machine
  import F = Freelist
  import Q = Queue
  import I = QueueInvariant

  /** The state as one thread sees it. */
  ghost predicate Sound(fl: F.Freelist, q: Q.Queue, th: Thread, t: Tid) {
    && F.Valid(fl) && Q.Valid(q, fl.place) && ThreadInv(fl, q, th, t)
    && (forall e | e in fl.place && fl.place[e] == Held(t) :: Holds(th) && Element(th) == e)
  }

  ghost predicate Good(fl: F.Freelist, q: Q.Queue, e: Effect, t: Tid) {
    && F.Valid(e.fl) && Q.Valid(e.q, e.fl.place)
    && Fair(fl, q, e.fl, e.q, t)
    && ThreadInv(e.fl, e.q, e.th, t)
    && Accounted(fl.place, e.fl.place, e.th, t)
  }

  // ---------------------------------------------------------------- local steps

  lemma FairToKeep(fl: F.Freelist, q: Q.Queue, t: Tid)
    requires F.Valid(fl) && Q.Valid(q, fl.place)
    ensures Fair(fl, q, fl, q, t)
  {
    I.EndsOfValid(q, fl.place);
    assert fl.place.Keys == q.heap.Keys;
    F.Stays(fl, t);
    hide F.Valid, Q.Valid, F.Evolves;
  }

  predicate IsLocal(th: Thread) {
    match th.q.pc
    case Idle | Return => true
    case Acquire | Release => th.f.pc == F.Done
    case _ => false
  }

  lemma LocalThread(fl: F.Freelist, q: Q.Queue, th: Thread, lab: Label)
    requires ThreadInv(fl, q, th, lab.t) && IsLocal(th)
    ensures var e := Act(fl, q, th, lab);
      && e.fl == fl && e.q == q && ThreadInv(fl, q, e.th, lab.t)
      && Holds(e.th) == Holds(th) && (Holds(th) ==> Element(e.th) == Element(th))
  {
  }

  lemma LocalGood(fl: F.Freelist, q: Q.Queue, th: Thread, lab: Label)
    requires Sound(fl, q, th, lab.t) && IsLocal(th)
    ensures Good(fl, q, Act(fl, q, th, lab), lab.t)
  {
    hide F.Valid, Q.Valid, Fair, ThreadInv, Act, Holds, Element;
    LocalThread(fl, q, th, lab);
    FairToKeep(fl, q, lab.t);
  }

  // ------------------------------------------------------------- freelist steps

  /** An element on the freelist has nothing behind it. */
  lemma FreeIsClear(q: Q.Queue, place: map<nat, Place>, e: nat)
    requires Q.Valid(q, place) && e in place && place[e].Free?
    ensures Q.Clear(q, place, e)
  {
    hide Q.Chained, Q.Loaded, Q.Placed, Q.Aged, Q.Ended, Q.Tagged, Q.TaggedBehind, Q.TagsUsed;
  }

  lemma ClearMoves(q: Q.Queue, place: map<nat, Place>, e: nat, t: Tid)
    requires Q.Clear(q, place, e)
    ensures Q.Clear(q, place[e := Held(t)], e)
  {
  }

  lemma OutsideFair(q: Q.Queue, place: map<nat, Place>, e: nat, p: Place, t: Tid)
    requires Q.Valid(q, place) && I.MovesOutside(q, place, e, p) && (place[e].Held? ==> place[e].owner == t)
    ensures Q.Valid(q, place[e := p]) && Q.Respects(q, q, place, place[e := p], t)
  {
    I.MoveKeepsValid(q, place, e, p);
    hide Q.Valid, I.MovesOutside, Q.Untouched;
    forall f | f in place && place[f].Held? && place[f].owner != t ensures Q.Untouched(q, q, place, place[e := p], f) {
      I.MoveSpares(q, place, e, p, f);
    }
  }

  /** What a freelist step does to places. */
  lemma FreelistMoves(fl: F.Freelist, f: F.Frame, t: Tid)
    requires F.Valid(fl) && F.Knows(fl, f, t)
    ensures var place' := F.StepShared(fl, f, t).place;
      if f.pc == F.PopSwap && fl.top == f.top then
        f.top.ptr in fl.place && fl.place[f.top.ptr].Free? && place' == fl.place[f.top.ptr := Held(t)]
      else if f.pc == F.PushSwap && fl.top == f.top then place' == fl.place[f.elem := Free(f.ticket)]
      else place' == fl.place
  {
    if f.pc == F.PopSwap && fl.top == f.top {
      assert F.OnStack(fl.place, fl.stack[0]);
    }
  }

  lemma FreelistPlace(fl: F.Freelist, q: Q.Queue, th: Thread, t: Tid)
    requires F.Valid(fl) && F.Knows(fl, th.f, t) && Q.Valid(q, fl.place)
    requires th.f.pc == F.PushSwap ==> HeldOutside(q, fl.place, th.f.elem, t)
    ensures var fl' := F.StepShared(fl, th.f, t);
      && Q.Valid(q, fl'.place) && Q.Respects(q, q, fl.place, fl'.place, t)
  {
    FreelistMoves(fl, th.f, t);
    FairToKeep(fl, q, t);
    hide F.Valid, F.Knows, Q.Valid, F.StepShared, Q.Respects, Q.Clear;
    if th.f.pc == F.PopSwap && fl.top == th.f.top {
      OutsideFair(q, fl.place, th.f.top.ptr, Held(t), t);
    } else if th.f.pc == F.PushSwap && fl.top == th.f.top {
      OutsideFair(q, fl.place, th.f.elem, Free(th.f.ticket), t);
    }
  }

  /** A pop that is done holds the element it took off the freelist. */
  lemma PopHolds(fl: F.Freelist, q: Q.Queue, th: Thread, t: Tid)
    requires F.Valid(fl) && Q.Valid(q, fl.place) && F.Knows(fl, th.f, t) && F.IsPop(th.f.pc) && th.q.pc == Q.Acquire
    requires forall e | e in fl.place && fl.place[e] == Held(t) :: Holds(th) && Element(th) == e
    ensures var e := FreelistStep(fl, q, th, t);
      && (Holds(e.th) ==> HeldOutside(q, e.fl.place, Element(e.th), t))
      && Accounted(fl.place, e.fl.place, e.th, t)
  {
    KeysOfValid(q, fl.place);
    hide F.Valid, F.Knows, Q.Valid, F.StepShared, F.StepFrame, Q.Clear, Accounted, F.IsPop;
    FreelistMoves(fl, th.f, t);
    PopFrame(fl, th.f);
    PopIsNot(th.f.pc);
    PopIsNot(F.StepFrame(fl, th.f).pc);
    var e := FreelistStep(fl, q, th, t);
    if th.f.pc == F.PopSwap && fl.top == th.f.top {
      FreeIsClear(q, fl.place, th.f.top.ptr);
      ClearMoves(q, fl.place, th.f.top.ptr, t);
      TakenAccounted(fl.place, th.f.top.ptr, e.th, t);
    } else {
      StillAccounted(fl.place, e.fl.place, th, e.th, t);
    }
  }

  lemma KeysOfValid(q: Q.Queue, place: map<nat, Place>)
    requires Q.Valid(q, place)
    ensures place.Keys == q.heap.Keys && NULL !in place
  {
  }

  lemma PopIsNot(pc: F.Pc)
    ensures F.IsPop(pc) ==> pc != F.Done && pc != F.PushSwap
  {
  }

  /** A pop that succeeds ends with the element, one that does not with NULL or not at all. */
  lemma PopFrame(fl: F.Freelist, f: F.Frame)
    requires F.IsPop(f.pc)
    ensures var f' := F.StepFrame(fl, f);
      if f.pc == F.PopSwap && fl.top == f.top then f'.pc == F.Done && f'.elem == f.top.ptr
      else F.IsPop(f'.pc) || (f'.pc == F.Done && f'.elem == NULL)
  {
  }

  lemma PushHolds(fl: F.Freelist, q: Q.Queue, th: Thread, t: Tid)
    requires F.Valid(fl) && F.Knows(fl, th.f, t) && !F.IsPop(th.f.pc) && th.f.pc != F.Done && th.q.pc == Q.Release
    requires HeldOutside(q, fl.place, th.f.elem, t)
    requires forall e | e in fl.place && fl.place[e] == Held(t) :: e == th.f.elem
    ensures var e := FreelistStep(fl, q, th, t);
      && (Holds(e.th) ==> HeldOutside(q, e.fl.place, Element(e.th), t))
      && Accounted(fl.place, e.fl.place, e.th, t)
  {
    var e := FreelistStep(fl, q, th, t);
    hide F.Valid, F.Knows, F.StepShared, F.StepFrame, Q.Clear, Accounted;
    FreelistMoves(fl, th.f, t);
    PushFrameStep(fl, th.f);
    if th.f.pc == F.PushSwap && fl.top == th.f.top {
      GoneAccounted(fl.place, th.f.elem, Free(th.f.ticket), e.th, t);
    } else {
      StillAccounted(fl.place, e.fl.place, th, e.th, t);
    }
  }

  /** A push that succeeds ends; one that does not still has its element. */
  lemma PushFrameStep(fl: F.Freelist, f: F.Frame)
    requires !F.IsPop(f.pc) && f.pc != F.Done
    ensures var f' := F.StepFrame(fl, f);
      f'.elem == f.elem && !F.IsPop(f'.pc) && (f'.pc == F.Done <==> f.pc == F.PushSwap && fl.top == f.top)
  {
  }

  lemma StaysNested(fl: F.Freelist, q: Q.Queue, th: Thread, t: Tid)
    requires Nested(th) && th.f.pc != F.Done
    ensures Nested(FreelistStep(fl, q, th, t).th)
  {
  }

  /** A frame that is not done keeps or releases what it holds. */
  lemma FreelistHolds(fl: F.Freelist, q: Q.Queue, th: Thread, t: Tid)
    requires Sound(fl, q, th, t) && th.f.pc != F.Done
    ensures var e := FreelistStep(fl, q, th, t);
      && Nested(e.th)
      && (Holds(e.th) ==> HeldOutside(q, e.fl.place, Element(e.th), t))
      && Accounted(fl.place, e.fl.place, e.th, t)
  {
    StaysNested(fl, q, th, t);
    hide F.Valid, Q.Valid, Q.Knows, Q.Owns, F.Knows, HeldOutside, Accounted, FreelistStep;
    if F.IsPop(th.f.pc) {
      PopHolds(fl, q, th, t);
    } else {
      PushHolds(fl, q, th, t);
    }
  }

  lemma FreelistThread(fl: F.Freelist, q: Q.Queue, th: Thread, t: Tid)
    requires Sound(fl, q, th, t) && th.f.pc != F.Done
    ensures var e := FreelistStep(fl, q, th, t);
      && ThreadInv(e.fl, e.q, e.th, t) && Accounted(fl.place, e.fl.place, e.th, t)
  {
    F.StepKeepsKnowledge(fl, th.f, t);
    FreelistHolds(fl, q, th, t);
    hide Q.Valid, Q.Knows, F.Valid, F.Knows, F.StepShared, F.StepFrame, HeldOutside, Accounted;
  }

  lemma FreelistGood(fl: F.Freelist, q: Q.Queue, th: Thread, t: Tid)
    requires Sound(fl, q, th, t) && th.f.pc != F.Done
    ensures Good(fl, q, FreelistStep(fl, q, th, t), t)
  {
    hide F.Valid, F.Knows, Q.Valid, Q.Knows, Q.Owns, F.StepShared, F.StepFrame, F.Evolves, Q.Respects, HeldOutside;
    F.StepKeepsValid(fl, th.f, t);
    F.StepEvolves(fl, th.f, t);
    FreelistPlace(fl, q, th, t);
    FreelistThread(fl, q, th, t);
    FairToKeep(fl, q, t);
    hide ThreadInv, Holds, Element;
  }

  // ----------------------------------------------------------------- allocation

  lemma CreateFreelist(fl: F.Freelist, q: Q.Queue, th: Thread, lab: Label)
    requires F.Valid(fl) && fl.place.Keys == q.heap.Keys && lab.addr != NULL && lab.addr !in q.heap
    ensures F.Valid(Create(fl, q, th, lab).fl)
  {
    F.LinkedFrame(fl.next, Create(fl, q, th, lab).fl.next, fl.stack);
    hide F.Linked;
  }

  lemma CreateGrowsQueue(fl: F.Freelist, q: Q.Queue, th: Thread, lab: Label)
    requires Q.Valid(q, fl.place) && lab.addr != NULL && lab.addr !in q.heap
    ensures var e := Create(fl, q, th, lab);
      && Q.Valid(e.q, e.fl.place) && Q.Grows(q, e.q) && Q.Respects(q, e.q, fl.place, e.fl.place, lab.t)
      && Q.Clear(e.q, e.fl.place, lab.addr) && e.q.first <= e.q.last < |e.q.nodes|
  {
    I.CreateKeepsValid(q, fl.place, lab.addr, lab.junk, lab.t);
    I.CreateGrows(q, fl.place, lab.addr, lab.junk);
    I.EndsOfValid(q, fl.place);
    var e := Create(fl, q, th, lab);
    hide Q.Valid, Q.Grows, Q.Untouched, Q.Clear;
    forall f | f in fl.place && fl.place[f].Held? && fl.place[f].owner != lab.t
      ensures Q.Untouched(q, e.q, fl.place, e.fl.place, f)
    {
      I.CreateSpares(q, fl.place, lab.addr, lab.junk, lab.t, f);
    }
  }

  lemma CreateEvolves(fl: F.Freelist, q: Q.Queue, th: Thread, lab: Label)
    requires F.Valid(fl) && fl.place.Keys == q.heap.Keys && lab.addr !in q.heap && lab.addr != NULL
    ensures F.Evolves(fl, Create(fl, q, th, lab).fl, lab.t)
  {
    hide F.Linked, F.Placed;
  }

  lemma CreateThread(fl: F.Freelist, q: Q.Queue, th: Thread, lab: Label)
    requires ThreadInv(fl, q, th, lab.t) && th.q.pc == Q.Create
    requires forall e | e in fl.place && fl.place[e] == Held(lab.t) :: Holds(th) && Element(th) == e
    requires var e := Create(fl, q, th, lab);
      lab.addr != NULL && lab.addr !in q.heap ==> Q.Clear(e.q, e.fl.place, lab.addr)
    ensures var e := Create(fl, q, th, lab);
      ThreadInv(e.fl, e.q, e.th, lab.t) && Accounted(fl.place, e.fl.place, e.th, lab.t)
  {
    hide Q.Clear;
  }

  lemma CreateGood(fl: F.Freelist, q: Q.Queue, th: Thread, lab: Label)
    requires Sound(fl, q, th, lab.t) && th.q.pc == Q.Create
    ensures Good(fl, q, Create(fl, q, th, lab), lab.t)
  {
    assert fl.place.Keys == q.heap.Keys;
    I.EndsOfValid(q, fl.place);
    hide F.Valid, Q.Valid, ThreadInv, Accounted, Q.Clear, Q.Grows, Q.Respects, F.Evolves, Holds, Element;
    if lab.addr != NULL && lab.addr !in q.heap {
      CreateFreelist(fl, q, th, lab);
      CreateGrowsQueue(fl, q, th, lab);
      CreateEvolves(fl, q, th, lab);
    } else {
      FairToKeep(fl, q, lab.t);
    }
    CreateThread(fl, q, th, lab);
  }

  // ---------------------------------------------------------------- queue steps

  predicate InQueue(pc: Q.Pc) {
    pc !in {Q.Idle, Q.Return, Q.Create, Q.Acquire, Q.Release}
  }

  /** Linking and unlinking nodes does not concern the freelist. */
  lemma QueueFreelist(fl: F.Freelist, q: Q.Queue, l: Q.Local, t: Tid)
    requires F.Valid(fl) && I.Ready(q, fl.place, l, t)
    ensures var fl' := fl.(place := Q.StepPlace(q, l, fl.place, t)); F.Valid(fl') && F.Evolves(fl, fl', t)
  {
    I.EndsOfValid(q, fl.place);
    hide F.Valid, F.Evolves, Q.Valid, Q.EnqKnows, Q.DeqKnows, Q.Owns;
    if Q.LinkFires(q, l) {
      LinkMoves(fl, q, l, t);
      F.MoveKeepsValid(fl, l.elem, if Q.IsLive(fl.place, l.enq.ptr) then Live(|q.nodes|) else Behind(l.enq.ptr), t);
    } else if Q.Extends(q, l) {
      I.SwingFollows(q, l);
      I.TailHangs(q, fl.place, Q.Target(l));
      F.MoveKeepsValid(fl, Q.Target(l), Live(|q.nodes|), t);
    } else if l.pc == Q.DeqSwap && q.deq == l.deq {
      I.LiveNodes(q, fl.place);
      F.MoveKeepsValid(fl, l.deq.ptr, Held(t), t);
    } else {
      F.Stays(fl, t);
    }
  }

  lemma LinkMoves(fl: F.Freelist, q: Q.Queue, l: Q.Local, t: Tid)
    requires Q.Owns(q, fl.place, l, t) && l.pc == Q.EnqLink
    ensures l.elem in fl.place && fl.place[l.elem] == Held(t)
  {
  }

  /** The freelist frame and what the thread holds fit together after a step. */
  ghost predicate Framed(fl: F.Freelist, q: Q.Queue, th: Thread, t: Tid) {
    var e := QueueStep(fl, q, th, t);
    && Nested(e.th) && F.Knows(e.fl, e.th.f, t)
    && (Holds(e.th) && !Q.Owning(e.th.q.pc) ==> HeldOutside(e.q, e.fl.place, Element(e.th), t))
  }

  /** The old dummy goes to freelist_push through its own `fe` field. */
  lemma PushFrame(fl: F.Freelist, q: Q.Queue, th: Thread, t: Tid)
    requires F.Valid(fl) && fl.place.Keys == q.heap.Keys && ThreadInv(fl, q, th, t) && th.q.pc == Q.DeqFe
    ensures Framed(fl, q, th, t)
  {
    PushCalled(fl, q, th, t);
    OwnsOldDummy(q, fl.place, th.q, t);
    hide Q.Knows, Q.Owns, F.Valid, F.Knows, Q.Clear, QueueStep;
    KnowsPush(fl, th.q.deq.ptr, t);
  }

  lemma OwnsOldDummy(q: Q.Queue, place: map<nat, Place>, l: Q.Local, t: Tid)
    requires Q.Owns(q, place, l, t) && l.pc == Q.DeqFe
    ensures HeldOutside(q, place, l.deq.ptr, t) && q.heap[l.deq.ptr].fe == l.deq.ptr
  {
  }

  lemma PushCalled(fl: F.Freelist, q: Q.Queue, th: Thread, t: Tid)
    requires th.q.pc == Q.DeqFe
    ensures var e := QueueStep(fl, q, th, t);
      && e.th.q.pc == Q.Release && e.th.f == F.PushCall(Q.At(q.heap, th.q.deq.ptr).fe)
      && e.q == q && e.fl == fl
  {
    I.ReadsOnly(q, fl.place, th.q);
    hide Q.Step, Q.StepPlace;
  }

  lemma KnowsPush(fl: F.Freelist, e: nat, t: Tid)
    requires F.Valid(fl) && e in fl.place && fl.place[e] == Held(t)
    ensures F.Knows(fl, F.PushCall(e), t)
  {
  }

  lemma NoFrame(q: Q.Queue, l: Q.Local)
    requires InQueue(l.pc) && l.pc != Q.DeqFe
    ensures Q.StepLocal(q, l).pc !in {Q.Acquire, Q.Release}
  {
  }

  lemma KnowsDone(fl: F.Freelist, place: map<nat, Place>, f: F.Frame, t: Tid)
    requires F.Knows(fl, f, t) && f.pc == F.Done
    ensures F.Knows(fl.(place := place), f, t)
  {
  }

  lemma QueueFrame(fl: F.Freelist, q: Q.Queue, th: Thread, t: Tid)
    requires F.Valid(fl) && fl.place.Keys == q.heap.Keys && ThreadInv(fl, q, th, t) && InQueue(th.q.pc)
    ensures Framed(fl, q, th, t)
  {
    if th.q.pc == Q.DeqFe {
      PushFrame(fl, q, th, t);
    } else {
      hide Q.Knows, Q.Owns, F.Valid, F.Knows, Q.Step, Q.StepPlace, HeldOutside, Q.StepLocal, Q.Owning, Q.Owned;
      NoFrame(q, th.q);
      KnowsDone(fl, Q.StepPlace(q, th.q, fl.place, t), th.f, t);
    }
  }

  lemma QueueThread(fl: F.Freelist, q: Q.Queue, th: Thread, t: Tid)
    requires Sound(fl, q, th, t) && InQueue(th.q.pc)
    ensures var e := QueueStep(fl, q, th, t); ThreadInv(e.fl, e.q, e.th, t)
  {
    I.StepKeepsEnqKnowledge(q, fl.place, th.q, t);
    I.StepKeepsDeqKnowledge(q, fl.place, th.q, t);
    I.StepKeepsOwnership(q, fl.place, th.q, t);
    QueueFrame(fl, q, th, t);
    hide Q.Step, Q.StepPlace, F.Valid, Q.Valid, F.Knows, Q.EnqKnows, Q.DeqKnows, Q.Owns;
    hide Nested, Holds, HeldOutside, Q.StepLocal;
  }

  lemma KeepsOwned(q: Q.Queue, l: Q.Local)
    requires InQueue(l.pc) && !Q.LinkFires(q, l) && l.pc != Q.DeqFe && (l.pc == Q.DeqSwap ==> q.deq != l.deq)
    ensures var l' := Q.StepLocal(q, l);
      && Q.Owning(l'.pc) == Q.Owning(l.pc) && Q.Owned(l') == Q.Owned(l)
      && l'.pc !in {Q.Acquire, Q.Release}
  {
    NoFrame(q, l);
  }

  /** Steps other than the link and the head swap leave the thread with what it held. */
  lemma KeepsElement(fl: F.Freelist, q: Q.Queue, th: Thread, t: Tid)
    requires Q.Owns(q, fl.place, th.q, t) && InQueue(th.q.pc) && !Q.LinkFires(q, th.q)
    requires th.q.pc == Q.DeqSwap ==> q.deq != th.q.deq
    ensures var e := QueueStep(fl, q, th, t);
      && e.fl.place == Q.StepPlace(q, th.q, fl.place, t)
      && Holds(e.th) == Holds(th) && (Holds(th) ==> Element(e.th) == Element(th))
  {
    if th.q.pc == Q.DeqFe {
      assert Q.At(q.heap, th.q.deq.ptr).fe == th.q.deq.ptr;
    } else {
      KeepsOwned(q, th.q);
      hide Q.Owns, Q.Owning, Q.Owned, Q.StepLocal, Q.Step, Q.StepPlace;
    }
  }

  /** What a queue step does to places, as far as the holder is concerned. */
  lemma QueueMoves(fl: F.Freelist, q: Q.Queue, l: Q.Local, t: Tid)
    requires I.Ready(q, fl.place, l, t)
    ensures var place' := Q.StepPlace(q, l, fl.place, t);
      if Q.LinkFires(q, l) then
        l.elem in fl.place && fl.place[l.elem] == Held(t) && l.elem in place' && !place'[l.elem].Held?
        && place' == fl.place[l.elem := place'[l.elem]]
      else if l.pc == Q.DeqSwap && q.deq == l.deq then place' == fl.place[l.deq.ptr := Held(t)]
      else forall e | e in place' && place'[e].Held? :: e in fl.place && fl.place[e] == place'[e]
  {
    hide Q.Valid, Q.Knows;
    if Q.LinkFires(q, l) {
      LinkMoves(fl, q, l, t);
    }
  }

  lemma StillAccounted(place: map<nat, Place>, place': map<nat, Place>, th: Thread, th': Thread, t: Tid)
    requires forall e | e in place && place[e] == Held(t) :: Holds(th) && Element(th) == e
    requires forall e | e in place' && place'[e].Held? :: e in place && place[e] == place'[e]
    requires Holds(th') == Holds(th) && (Holds(th) ==> Element(th') == Element(th))
    ensures Accounted(place, place', th', t)
  {
    hide Holds, Element;
  }

  lemma GoneAccounted(place: map<nat, Place>, x: nat, p: Place, th': Thread, t: Tid)
    requires forall e | e in place && place[e] == Held(t) :: e == x
    requires !p.Held?
    ensures Accounted(place, place[x := p], th', t)
  {
    hide Holds, Element;
  }

  lemma TakenAccounted(place: map<nat, Place>, x: nat, th': Thread, t: Tid)
    requires forall e | e in place :: place[e] != Held(t)
    requires Holds(th') && Element(th') == x
    ensures Accounted(place, place[x := Held(t)], th', t)
  {
    hide Holds, Element;
  }

  lemma QueueAccounts(fl: F.Freelist, q: Q.Queue, th: Thread, t: Tid)
    requires Sound(fl, q, th, t) && InQueue(th.q.pc)
    ensures var e := QueueStep(fl, q, th, t); Accounted(fl.place, e.fl.place, e.th, t)
  {
    var e := QueueStep(fl, q, th, t);
    hide Q.Valid, Q.EnqKnows, Q.DeqKnows, Q.Owns, F.Valid, F.Knows, Q.Step, Q.StepPlace, Q.StepLocal;
    hide HeldOutside, Nested, Accounted, Q.LinkFires, Holds, Element;
    QueueMoves(fl, q, th.q, t);
    if Q.LinkFires(q, th.q) {
      LinkerHolds(q, th);
      GoneAccounted(fl.place, th.q.elem, e.fl.place[th.q.elem], e.th, t);
    } else if th.q.pc == Q.DeqSwap && q.deq == th.q.deq {
      TakerHolds(q, th, e.th);
      TakenAccounted(fl.place, th.q.deq.ptr, e.th, t);
    } else {
      hide QueueStep;
      KeepsElement(fl, q, th, t);
      StillAccounted(fl.place, e.fl.place, th, e.th, t);
    }
  }

  lemma TakerHolds(q: Q.Queue, th: Thread, th': Thread)
    requires th.q.pc == Q.DeqSwap && q.deq == th.q.deq && th'.q == Q.StepLocal(q, th.q)
    ensures !Holds(th) && Holds(th') && Element(th') == th.q.deq.ptr
  {
  }

  lemma LinkerHolds(q: Q.Queue, th: Thread)
    requires Q.LinkFires(q, th.q)
    ensures Element(th) == th.q.elem
  {
  }

  lemma QueueGood(fl: F.Freelist, q: Q.Queue, th: Thread, t: Tid)
    requires Sound(fl, q, th, t) && InQueue(th.q.pc)
    ensures Good(fl, q, QueueStep(fl, q, th, t), t)
  {
    QueueThread(fl, q, th, t);
    QueueAccounts(fl, q, th, t);
    QueueFreelist(fl, q, th.q, t);
    I.StepKeepsValid(q, fl.place, th.q, t);
    I.EndsOfValid(q, fl.place);
    I.EndsOfValid(Q.Step(q, th.q, fl.place), Q.StepPlace(q, th.q, fl.place, t));
    I.StepGrows(q, fl.place, th.q, t);
    I.StepRespects(q, fl.place, th.q, t);
    hide Q.Step, Q.StepPlace, F.Valid, Q.Valid, ThreadInv, Accounted, F.Evolves, Q.Grows, Q.Respects, Q.StepLocal;
  }

  // ------------------------------------------------------------------ all steps

  lemma SoundThread(s: System, t: Tid)
    requires Inv(s) && t in s.threads
    ensures Sound(s.fl, s.q, s.threads[t], t)
  {
    hide F.Valid, Q.Valid, ThreadInv;
  }

  lemma ActGood(fl: F.Freelist, q: Q.Queue, th: Thread, lab: Label)
    requires Sound(fl, q, th, lab.t)
    ensures Good(fl, q, Act(fl, q, th, lab), lab.t)
  {
    hide Sound, Good, QueueStep, FreelistStep, Create;
    if IsLocal(th) {
      LocalGood(fl, q, th, lab);
    } else if th.q.pc == Q.Create {
      CreateGood(fl, q, th, lab);
    } else if InQueue(th.q.pc) {
      QueueGood(fl, q, th, lab.t);
    } else {
      FreelistGood(fl, q, th, lab.t);
    }
  }

  /** Every step of every thread keeps the invariant. */
  lemma NextKeepsInv(s: System, lab: Label)
    requires Inv(s)
    ensures Inv(Next(s, lab))
  {
    hide Inv, Act;
    if lab.t in s.threads {
      SoundThread(s, lab.t);
      ActGood(s.fl, s.q, s.threads[lab.t], lab);
      hide Sound, F.Valid, Q.Valid, Fair, ThreadInv, Accounted;
      Assemble(s, Next(s, lab), lab.t);
    }
  }
}
