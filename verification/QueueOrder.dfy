/** Until a link swap hits a node outside the chain, the values in the chain are in the order
    in which they were linked, and no (NULL, counter) pair ever comes back. */
module QueueOrder {
  import opened Words
  import opened Queue
  import opened QueueInvariant

  /** The two words of the next pair were read on either side of another thread's link. */
  ghost predicate Torn(l: Local) {
    l.pc == EnqLink && l.next.ctr != l.seen
  }

  // ------------------------------------------------------------------- invariant

  /** The last node's next is NULL, with the counter it drew. */
  ghost predicate Open(heap: map<nat, Node>, nodes: seq<nat>, draws: seq<nat>) {
    && 0 < |nodes| == |draws|
    && At(heap, nodes[|nodes| - 1]).next == Pair(NULL, draws[|nodes| - 1])
  }

  /** A node whose successor was linked never shows that incarnation's counter again. */
  ghost predicate Spent(heap: map<nat, Node>, nodes: seq<nat>, draws: seq<nat>) {
    && |nodes| == |draws|
    && (forall i | 0 <= i < |nodes| - 1 :: At(heap, nodes[i]).next.ctr > draws[i])
  }

  /** Link counters come from `aba`, except the first dummy's, drawn before `aba` was reset. */
  ghost predicate Counted(draws: seq<nat>, aba: nat) {
    && (|draws| == 1 ==> draws[0] == 2)
    && (|draws| >= 2 ==> forall i | 0 <= i < |draws| :: draws[i] <= aba)
  }

  ghost predicate NoneBehind(place: map<nat, Place>) {
    forall e | e in place :: !place[e].Behind?
  }

  ghost predicate Orderly(q: Queue, place: map<nat, Place>) {
    && 0 < |q.values| && q.linked == q.values[1..]
    && Open(q.heap, q.nodes, q.draws)
    && Spent(q.heap, q.nodes, q.draws)
    && Counted(q.draws, q.aba)
    && NoneBehind(place)
  }

  /** A NULL next that was read from node number `i` while that node was in the chain has
      the counter the node drew. */
  ghost predicate NullSeen(q: Queue, l: Local, i: nat) {
    l.next.ptr == NULL ==> i < |q.draws| && l.seen == q.draws[i]
  }

  ghost predicate OrderKnows(q: Queue, l: Local) {
    match l.pc
    case EnqNextCtr | EnqCheckPtr => q.last == l.enqAt && Same(q.nodes, l.enqAt, l.enq.ptr) ==> NullSeen(q, l, l.enqAt)
    case EnqCheckCtr => q.last == l.enqAt ==> NullSeen(q, l, l.enqAt)
    case EnqLink => NullSeen(q, l, l.enqAt)
    case _ => true
  }

  /** The counter drawn for the element is greater than all it was ever linked with. */
  ghost predicate Drawn(q: Queue, l: Local) {
    && 2 <= l.draw <= q.aba
    && |q.draws| == |q.nodes|
    && (forall i | 0 <= i < |q.nodes| && q.nodes[i] == l.elem :: q.draws[i] < l.draw)
  }

  ghost predicate DrawnNext(q: Queue, l: Local) {
    Drawn(q, l) && At(q.heap, l.elem).next == Pair(NULL, l.draw)
  }

  ghost predicate OrderOwns(q: Queue, l: Local) {
    match l.pc
    case InitNextPtr | InitNextDraw => q.aba >= 1
    case InitNextCtr => Drawn(q, l)
    case InitFe | InitData => DrawnNext(q, l)
    case EnqPtr | EnqCtr | EnqNextPtr | EnqNextCtr | EnqCheckPtr | EnqCheckCtr | EnqLink | EnqHelp => DrawnNext(q, l)
    case _ => true
  }

  ghost predicate OrderReady(q: Queue, place: map<nat, Place>, l: Local, t: Tid) {
    Ready(q, place, l, t) && Orderly(q, place) && OrderKnows(q, l) && OrderOwns(q, l)
  }

  // ------------------------------------------------------------------------ counters

  /** However stale, a link swap whose pair was not torn succeeds only on the last node,
      and `enq` still points at it. */
  lemma UntornLinkHitsLast(q: Queue, place: map<nat, Place>, l: Local)
    requires Ends(q) && Placed(place, q.nodes, q.first) && EnqKnows(q, l)
    requires Open(q.heap, q.nodes, q.draws) && Spent(q.heap, q.nodes, q.draws) && OrderKnows(q, l)
    requires LinkFires(q, l) && !Torn(l)
    ensures l.enqAt == |q.nodes| - 1 == q.last && l.enq.ptr == q.nodes[|q.nodes| - 1]
    ensures q.enq == l.enq
    ensures IsLive(place, l.enq.ptr)
  {
    assert At(q.heap, q.nodes[l.enqAt]).next.ctr == q.draws[l.enqAt];
  }

  /** A held element that was in the chain before was linked in every incarnation. */
  lemma HeldIsSpent(q: Queue, place: map<nat, Place>, e: nat)
    requires Ends(q) && Placed(place, q.nodes, q.first) && Spent(q.heap, q.nodes, q.draws)
    requires e in place && place[e].Held?
    ensures forall i | 0 <= i < |q.nodes| && q.nodes[i] == e :: i < q.first && At(q.heap, e).next.ctr > q.draws[i]
  {
    forall i | 0 <= i < |q.nodes| && q.nodes[i] == e ensures i < q.first && At(q.heap, e).next.ctr > q.draws[i] {
      assert At(q.heap, q.nodes[i]) == At(q.heap, e);
    }
  }

  // ----------------------------------------------------------------- the invariant

  lemma WriteKeepsOrder(q: Queue, place: map<nat, Place>, e: nat, n: Node)
    requires Ends(q) && Placed(place, q.nodes, q.first) && Orderly(q, place)
    requires e in place && place[e].Held? && e in q.heap
    requires forall i | 0 <= i < |q.nodes| && q.nodes[i] == e :: n.next.ctr > q.draws[i]
    ensures Orderly(SetNode(q, e, n), place)
  {
  }

  lemma LinkKeepsOrder(q: Queue, place: map<nat, Place>, l: Local)
    requires Orderly(q, place) && Ends(q) && LinkFires(q, l) && OrderOwns(q, l)
    requires l.enq.ptr in q.heap && l.elem in q.heap && l.elem != l.enq.ptr
    requires l.enq.ptr == q.nodes[|q.nodes| - 1]
    ensures Orderly(Link(q, l, true), place[l.elem := Live(|q.nodes|)])
  {
    var q', n := Link(q, l, true), |q.nodes|;
    assert q'.values[1..] == q.values[1..] + [l.value];
    forall i | 0 <= i < n ensures At(q'.heap, q'.nodes[i]).next.ctr > q'.draws[i] {
      assert q'.nodes[i] == q.nodes[i] && q'.draws[i] == q.draws[i];
      if q.nodes[i] == l.enq.ptr {
        assert At(q'.heap, q.nodes[i]).next.ctr > At(q.heap, q.nodes[i]).next.ctr;
      }
    }
  }

  /** While the order holds, swings only reach nodes that are in the chain. */
  lemma SwingIsShort(q: Queue, place: map<nat, Place>, l: Local)
    requires Valid(q, place) && Orderly(q, place) && Knows(q, l) && Swings(l.pc) && q.enq == l.enq
    ensures q.last + 1 < |q.nodes|
  {
    EndsOfValid(q, place);
    SwingFollows(q, l);
    hide Valid, EnqKnows, DeqKnows, Spent, Counted, NoneBehind;
    if q.last + 1 >= |q.nodes| {
      TailHangs(q, place, Target(l));
    }
  }

  lemma SameOrder(q: Queue, q': Queue, place: map<nat, Place>, place': map<nat, Place>)
    requires Orderly(q, place) && NoneBehind(place') && q'.heap == q.heap && q'.nodes == q.nodes && q'.draws == q.draws
    requires q'.values == q.values && q'.linked == q.linked && q'.aba >= q.aba
    ensures Orderly(q', place')
  {
  }

  lemma InitKeepsOrder(q: Queue, place: map<nat, Place>, l: Local, t: Tid)
    requires Valid(q, place) && Owns(q, place, l, t) && Orderly(q, place) && OrderOwns(q, l) && Writes(l.pc)
    ensures Orderly(Step(q, l, place), StepPlace(q, l, place, t))
  {
    EndsOfValid(q, place);
    HeldIsSpent(q, place, l.elem);
    WriteStep(q, place, l, t);
    var n := Step(q, l, place).heap[l.elem];
    assert forall i | 0 <= i < |q.nodes| && q.nodes[i] == l.elem :: n.next.ctr > q.draws[i];
    hide Chained, Loaded, Retired, Aged, Hung, Ended, Tagged, TaggedBehind, TagsUsed, Orderly, Step, StepPlace;
    WriteKeepsOrder(q, place, l.elem, n);
  }

  lemma LiveLinkKeepsOrder(q: Queue, place: map<nat, Place>, l: Local, t: Tid)
    requires Linking(q, place, l, t) && Orderly(q, place) && OrderOwns(q, l) && IsLive(place, l.enq.ptr)
    ensures Orderly(Step(q, l, place), StepPlace(q, l, place, t))
  {
    EndsOfValid(q, place);
    LinkStep(q, place, l, t);
    LiveIsLast(q, place, l);
    hide Valid, Orderly, Step, StepPlace, EnqKnows;
    LinkKeepsOrder(q, place, l);
  }

  /** A step that is neither a write nor a link leaves nodes and values as they are. */
  lemma OtherKeepsOrder(q: Queue, place: map<nat, Place>, l: Local, t: Tid)
    requires Valid(q, place) && Knows(q, l) && Orderly(q, place) && !Writes(l.pc) && !LinkFires(q, l)
    ensures Orderly(Step(q, l, place), StepPlace(q, l, place, t))
  {
    var q', place' := Step(q, l, place), StepPlace(q, l, place, t);
    hide Valid, Knows, Step, StepPlace, Open, Spent, Counted, LinkFires;
    if Swings(l.pc) && q.enq == l.enq {
      SwingIsShort(q, place, l);
      SwingStep(q, place, l, t);
    } else if l.pc == DeqSwap && q.deq == l.deq {
      HeadStep(q, place, l, t);
    } else {
      QuietStep(q, place, l, t);
    }
    SameOrder(q, q', place, place');
  }

  /** Every step of a queue call that is not a stray link keeps the order. */
  lemma StepKeepsOrder(q: Queue, place: map<nat, Place>, l: Local, t: Tid)
    requires OrderReady(q, place, l, t) && !StrayLink(q, l, place)
    ensures Orderly(Step(q, l, place), StepPlace(q, l, place, t))
  {
    hide Valid, EnqKnows, DeqKnows, Owns, Step, StepPlace, Orderly, OrderOwns, OrderKnows, LinkFires;
    if Writes(l.pc) {
      InitKeepsOrder(q, place, l, t);
    } else if LinkFires(q, l) {
      LiveLinkKeepsOrder(q, place, l, t);
    } else {
      OtherKeepsOrder(q, place, l, t);
    }
  }

  // ----------------------------------------------------------------- what calls know

  lemma OrderKnowledgeSurvives(q: Queue, q': Queue, l: Local)
    requires q.last <= q'.last && q.nodes <= q'.nodes && q.draws <= q'.draws && EnqKnows(q, l) && q.last < |q.nodes|
    requires OrderKnows(q, l)
    ensures OrderKnows(q', l)
  {
  }

  /** Reading the next pair of the node `enq` points at. */
  lemma OrderReads(q: Queue, l: Local)
    requires Ends(q) && Allocated(q.heap, q.nodes) && Chained(q.heap, q.nodes, q.first)
    requires Open(q.heap, q.nodes, q.draws)
    requires OrderKnows(q, l) && EnqKnows(q, l) && !Swings(l.pc) && l.pc != EnqLink
    ensures OrderKnows(q, StepLocal(q, l))
  {
    assert q.last < |q.nodes| - 1 ==> NextIs(q.heap, q.nodes, q.last);
  }

  lemma OrderIgnorant(q: Queue, q': Queue, l: Local)
    requires !(l.pc in {EnqNextPtr, EnqNextCtr, EnqCheckPtr, EnqCheckCtr})
    ensures OrderKnows(q', StepLocal(q, l))
  {
  }

  lemma StepKeepsOrderKnowledge(q: Queue, place: map<nat, Place>, l: Local, t: Tid)
    requires Valid(q, place) && EnqKnows(q, l) && Orderly(q, place) && OrderKnows(q, l)
    ensures OrderKnows(Step(q, l, place), StepLocal(q, l))
  {
    hide EnqKnows, OrderKnows, Step, StepPlace, StepLocal, Spent, Counted;
    if l.pc in {EnqNextPtr, EnqNextCtr, EnqCheckPtr, EnqCheckCtr} {
      OrderReads(q, l);
      ReadsOnly(q, place, l);
    } else {
      OrderIgnorant(q, Step(q, l, place), l);
    }
  }

  // ------------------------------------------------------------------- what calls own

  /** The link of a held element is left alone, and the element is not put in the chain. */
  ghost predicate Undisturbed(q: Queue, q': Queue, f: nat) {
    && At(q'.heap, f).next == At(q.heap, f).next
    && q.nodes <= q'.nodes && q.draws <= q'.draws && |q'.draws| == |q'.nodes| && q.aba <= q'.aba
    && forall i | |q.nodes| <= i < |q'.nodes| :: q'.nodes[i] != f
  }

  lemma OrderOwnershipSurvives(q: Queue, q': Queue, l: Local)
    requires Undisturbed(q, q', l.elem) && OrderOwns(q, l)
    ensures OrderOwns(q', l)
  {
  }

  lemma LinkUndisturbs(q: Queue, place: map<nat, Place>, l: Local, f: nat)
    requires Ends(q) && f in place && place[f].Held? && f != l.elem && IsLive(place, l.enq.ptr)
    ensures Undisturbed(q, Link(q, l, true), f)
  {
  }

  /** A step that is neither a write nor a link leaves all links, and the nodes, alone. */
  lemma OtherUndisturbs(q: Queue, place: map<nat, Place>, l: Local, t: Tid, f: nat)
    requires Valid(q, place) && Knows(q, l) && Orderly(q, place) && !Writes(l.pc) && !LinkFires(q, l)
    ensures Undisturbed(q, Step(q, l, place), f)
  {
    EndsOfValid(q, place);
    hide Valid, Knows, Step, StepPlace, Orderly, LinkFires, Undisturbed;
    if Swings(l.pc) && q.enq == l.enq {
      SwingIsShort(q, place, l);
      SwingStep(q, place, l, t);
    } else if l.pc == DeqSwap && q.deq == l.deq {
      HeadStep(q, place, l, t);
    } else {
      QuietStep(q, place, l, t);
    }
    SameUndisturbed(q, Step(q, l, place), f);
  }

  lemma SameUndisturbed(q: Queue, q': Queue, f: nat)
    requires q'.heap == q.heap && q'.nodes == q.nodes && q'.draws == q.draws && q.aba <= q'.aba
    requires |q.draws| == |q.nodes|
    ensures Undisturbed(q, q', f)
  {
  }

  lemma StepUndisturbs(q: Queue, place: map<nat, Place>, l: Local, t: Tid, f: nat)
    requires Ready(q, place, l, t) && Orderly(q, place) && !StrayLink(q, l, place)
    requires f in place && place[f].Held? && (Writes(l.pc) || LinkFires(q, l) ==> f != l.elem)
    ensures Undisturbed(q, Step(q, l, place), f)
  {
    EndsOfValid(q, place);
    hide Valid, EnqKnows, DeqKnows, Step, StepPlace, Orderly, Undisturbed, LinkFires;
    if Writes(l.pc) {
      WriteStep(q, place, l, t);
      WriteUndisturbs(q, l.elem, Step(q, l, place).heap[l.elem], f);
    } else if LinkFires(q, l) {
      LinkStep(q, place, l, t);
      LinkUndisturbs(q, place, l, f);
    } else {
      OtherUndisturbs(q, place, l, t, f);
    }
  }

  lemma WriteUndisturbs(q: Queue, e: nat, n: Node, f: nat)
    requires f != e && |q.draws| == |q.nodes|
    ensures Undisturbed(q, SetNode(q, e, n), f)
  {
  }

  lemma InitOnlyDraws(q: Queue, place: map<nat, Place>, l: Local, t: Tid)
    requires Orderly(q, place) && Ends(q) && Placed(place, q.nodes, q.first) && Owns(q, place, l, t) && OrderOwns(q, l)
    requires l.pc in {InitDraw, InitNextDraw}
    ensures OrderOwns(Step(q, l, place), StepLocal(q, l))
  {
    assert place[q.nodes[q.first]] == Live(q.first);
    hide Open, Spent, NoneBehind;
  }

  /** Drawing the counters and writing them. */
  lemma DrawOwns(q: Queue, place: map<nat, Place>, l: Local, t: Tid)
    requires Valid(q, place) && Orderly(q, place) && Owns(q, place, l, t) && OrderOwns(q, l)
    requires l.pc in {InitDraw, InitNextPtr, InitNextDraw, InitNextCtr, InitFe, InitData}
    ensures OrderOwns(Step(q, l, place), StepLocal(q, l))
  {
    EndsOfValid(q, place);
    PlacedOfValid(q, place);
    hide Valid, Open, Spent, Counted;
    if l.pc in {InitDraw, InitNextDraw} {
      InitOnlyDraws(q, place, l, t);
    } else {
      WriteStep(q, place, l, t);
      hide Step, StepPlace;
    }
  }

  lemma PlacedOfValid(q: Queue, place: map<nat, Place>)
    requires Valid(q, place)
    ensures Placed(place, q.nodes, q.first)
  {
  }

  lemma LoopOwns(q: Queue, q': Queue, l: Local)
    requires Undisturbed(q, q', l.elem) && OrderOwns(q, l) && !LinkFires(q, l)
    requires l.pc !in {InitDraw, InitNextPtr, InitNextDraw, InitNextCtr, InitFe, InitData}
    requires Owning(l.pc) && l.pc != DeqFe
    ensures OrderOwns(q', StepLocal(q, l))
  {
    OrderOwnershipSurvives(q, q', l);
    hide DrawnNext, Undisturbed;
  }

  lemma NoOrderOwns(q: Queue, q': Queue, l: Local)
    requires !Owning(l.pc) || l.pc == DeqFe || LinkFires(q, l)
    ensures OrderOwns(q', StepLocal(q, l))
  {
  }

  lemma StepKeepsOrderOwnership(q: Queue, place: map<nat, Place>, l: Local, t: Tid)
    requires OrderReady(q, place, l, t) && !StrayLink(q, l, place)
    ensures OrderOwns(Step(q, l, place), StepLocal(q, l))
  {
    hide Valid, EnqKnows, DeqKnows, Step, StepLocal, Orderly, OrderOwns, OrderKnows, Undisturbed, LinkFires, StrayLink;
    if l.pc in {InitDraw, InitNextPtr, InitNextDraw, InitNextCtr, InitFe, InitData} {
      DrawOwns(q, place, l, t);
    } else if Owning(l.pc) && l.pc != DeqFe && !LinkFires(q, l) {
      StepUndisturbs(q, place, l, t, l.elem);
      LoopOwns(q, Step(q, l, place), l);
    } else {
      NoOrderOwns(q, Step(q, l, place), l);
    }
  }
}
