/** The event queue: a chain of nodes that starts with a dummy, changed by double-word
    compare-and-swap on `enqueue`, `dequeue` and the last node's `next`.

    As in module Freelist, each step is one access to shared memory.  The two words of
    every pair are read one at a time, in the order of the program. */
module Queue {
  import opened Words

  datatype Node = Node(next: Pair, fe: nat, data: Value)

  /** The first four fields are the program's memory.  The rest is history, which no
      step reads to decide what to do:
        nodes    every node that was ever put in the chain, oldest first; a node that
                 was recycled appears several times
        values   the value each of them was enqueued with
        draws    the counter each of them drew for its (NULL, counter) link
        tags     the number of the link swap that linked each of them, from 0
        tag      the number of the link swap that last linked each element
        left     for each element that left the chain, how many nodes had left it by then
        first    index in `nodes` of the dummy, the node `deq` points at
        last     index in `nodes` of the node `enq` points at
        enqBase, deqBase   what the counters of `enq` and `deq` were before any swap
        linked   the values of all enqueues whose link swap succeeded
        out      the values returned by all dequeues whose head swap succeeded
        commits  the number of successful swaps */
  datatype Queue = Queue(
    enq: Pair,
    deq: Pair,
    aba: nat,
    heap: map<nat, Node>,
    nodes: seq<nat>,
    values: seq<Value>,
    draws: seq<nat>,
    tags: seq<nat>,
    tag: map<nat, nat>,
    left: map<nat, nat>,
    first: nat,
    last: nat,
    enqBase: nat,
    deqBase: nat,
    linked: seq<Value>,
    out: seq<Value>,
    commits: nat)

  datatype Op = Enqueue | GuaranteedEnqueue | Dequeue

  datatype Pc =
    // between calls, and on the way out of one
    | Idle | Return
    // obtaining an element, inside freelist_pop or freelist_guaranteed_pop
    | Acquire | Create
    // queue_internal_init_element
    | InitDraw | InitNextPtr | InitNextDraw | InitNextCtr | InitFe | InitData
    // queue_internal_queue
    | EnqPtr | EnqCtr | EnqNextPtr | EnqNextCtr | EnqCheckPtr | EnqCheckCtr | EnqLink | EnqHelp | EnqSwing
    // queue_dequeue
    | DeqPtr | DeqCtr | DeqEnqPtr | DeqEnqCtr | DeqNextPtr | DeqNextCtr | DeqCheckPtr | DeqCheckCtr
    | DeqHelp | DeqData | DeqSwap | DeqFe
    // giving the old dummy back, inside freelist_push
    | Release

  /** The locals of a call.  `enq`, `deq` and `next` are the program's own local pairs,
      `elem`, `value` and `rv` its element, user data and return value, `draw` the link
      counter it drew.  The rest is history:
        enqAt, deqAt   `last` and `first` when the counter word was read
        seen           the counter word of the next pair when its pointer word was read
        sawEmpty       no node came after the dummy when the pointer word was read
        mark           the number of commits when the current pass began */
  datatype Local = Local(
    pc: Pc,
    op: Op,
    elem: nat,
    value: Value,
    rv: nat,
    draw: nat,
    enq: Pair,
    deq: Pair,
    next: Pair,
    enqAt: nat,
    deqAt: nat,
    seen: nat,
    sawEmpty: bool,
    mark: nat)

  const JUNK := Node(NONE, NULL, NULL)

  function At(heap: map<nat, Node>, p: nat): Node {
    if p in heap then heap[p] else JUNK
  }

  /** The value a counter has after a swap. */
  function Bump(c: nat): nat {
    c + STRIDE
  }

  function SetNode(q: Queue, p: nat, n: Node): Queue {
    q.(heap := q.heap[p := n])
  }

  function Stamp(m: map<nat, nat>, p: nat): nat {
    if p in m then m[p] else 0
  }

  /** Swinging `enq` to `p`, the node after the one it points at.  If the history does not
      have `p` in the chain yet, it is now. */
  function SwingEnq(q: Queue, l: Local, p: nat): Queue {
    if q.enq != l.enq then q else
    var q1 := if q.last + 1 < |q.nodes| then q else Extend(q, p);
    q1.(enq := Pair(p, Bump(l.enq.ctr)), last := q.last + 1, commits := q.commits + 1)
  }

  /** The node `p`, linked earlier, joins the chain. */
  function Extend(q: Queue, p: nat): Queue {
    q.(nodes := q.nodes + [p], values := q.values + [At(q.heap, p).data],
       draws := q.draws + [At(q.heap, p).next.ctr], tags := q.tags + [Stamp(q.tag, p)])
  }

  /** The compare-and-swap that puts a node in the chain.  The history counts the
      value as linked, and the node as part of the chain if the swap hit a live node. */
  function Link(q: Queue, l: Local, live: bool): Queue {
    if At(q.heap, l.enq.ptr).next != Pair(NULL, l.next.ctr) then q else
    var q1 := SetNode(q, l.enq.ptr,
                      At(q.heap, l.enq.ptr).(next := Pair(l.elem, Bump(l.next.ctr))));
    var q2 := q1.(linked := q.linked + [l.value], commits := q.commits + 1,
                  tag := q.tag[l.elem := |q.linked|]);
    if live then
      q2.(nodes := q.nodes + [l.elem], values := q.values + [l.value], draws := q.draws + [l.draw],
          tags := q.tags + [|q.linked|])
    else q2
  }

  /** The dummy leaves the chain; the node after it is the new dummy. */
  function TakeHead(q: Queue, l: Local): Queue {
    q.(deq := Pair(l.next.ptr, Bump(l.deq.ctr)), first := q.first + 1,
       left := q.left[l.deq.ptr := q.first + 1], out := q.out + [l.value], commits := q.commits + 1)
  }

  function StepShared(q: Queue, l: Local, live: bool): Queue {
    match l.pc
    case InitDraw => q.(aba := q.aba + 1)
    case InitNextPtr => SetNode(q, l.elem, At(q.heap, l.elem).(next := At(q.heap, l.elem).next.(ptr := NULL)))
    case InitNextDraw => q.(aba := q.aba + 1)
    case InitNextCtr => SetNode(q, l.elem, At(q.heap, l.elem).(next := At(q.heap, l.elem).next.(ctr := l.draw)))
    case InitFe => SetNode(q, l.elem, At(q.heap, l.elem).(fe := l.elem))
    case InitData => SetNode(q, l.elem, At(q.heap, l.elem).(data := l.value))
    case EnqLink => Link(q, l, live)
    case EnqHelp => SwingEnq(q, l, l.next.ptr)
    case EnqSwing => SwingEnq(q, l, l.elem)
    case DeqHelp => SwingEnq(q, l, l.next.ptr)
    case DeqSwap => if q.deq != l.deq then q else TakeHead(q, l)
    case _ => q
  }

  function StepLocal(q: Queue, l: Local): Local {
    match l.pc
    case InitDraw => l.(pc := InitNextPtr)
    case InitNextPtr => l.(pc := InitNextDraw)
    case InitNextDraw => l.(pc := InitNextCtr, draw := q.aba + 1)
    case InitNextCtr => l.(pc := InitFe)
    case InitFe => l.(pc := InitData)
    case InitData => l.(pc := EnqPtr)
    case EnqPtr => l.(pc := EnqCtr, enq := l.enq.(ptr := q.enq.ptr), mark := q.commits)
    case EnqCtr => l.(pc := EnqNextPtr, enq := l.enq.(ctr := q.enq.ctr), enqAt := q.last)
    case EnqNextPtr =>
      l.(pc := EnqNextCtr, next := l.next.(ptr := At(q.heap, l.enq.ptr).next.ptr),
         seen := At(q.heap, l.enq.ptr).next.ctr)
    case EnqNextCtr => l.(pc := EnqCheckPtr, next := l.next.(ctr := At(q.heap, l.enq.ptr).next.ctr))
    case EnqCheckPtr => l.(pc := if q.enq.ptr == l.enq.ptr then EnqCheckCtr else EnqPtr)
    case EnqCheckCtr =>
      l.(pc := if q.enq.ctr != l.enq.ctr then EnqPtr
               else if l.next.ptr == NULL then EnqLink else EnqHelp)
    case EnqLink =>
      l.(pc := if At(q.heap, l.enq.ptr).next == Pair(NULL, l.next.ctr) then EnqSwing else EnqPtr)
    case EnqHelp => l.(pc := EnqPtr)
    case EnqSwing => l.(pc := Return, rv := 1)
    case DeqPtr => l.(pc := DeqCtr, deq := l.deq.(ptr := q.deq.ptr), mark := q.commits)
    case DeqCtr => l.(pc := DeqEnqPtr, deq := l.deq.(ctr := q.deq.ctr), deqAt := q.first)
    case DeqEnqPtr => l.(pc := DeqEnqCtr, enq := l.enq.(ptr := q.enq.ptr))
    case DeqEnqCtr => l.(pc := DeqNextPtr, enq := l.enq.(ctr := q.enq.ctr), enqAt := q.last)
    case DeqNextPtr =>
      l.(pc := DeqNextCtr, next := l.next.(ptr := At(q.heap, l.deq.ptr).next.ptr),
         sawEmpty := At(q.heap, q.deq.ptr).next.ptr == NULL)
    case DeqNextCtr => l.(pc := DeqCheckPtr, next := l.next.(ctr := At(q.heap, l.deq.ptr).next.ctr))
    case DeqCheckPtr => l.(pc := if q.deq.ptr == l.deq.ptr then DeqCheckCtr else DeqPtr)
    case DeqCheckCtr =>
      if q.deq.ctr != l.deq.ctr then l.(pc := DeqPtr)
      else if l.enq.ptr != l.deq.ptr then l.(pc := DeqData)
      else if l.next.ptr != NULL then l.(pc := DeqHelp)
      else l.(pc := Return, rv := 0, value := NULL)
    case DeqHelp => l.(pc := DeqPtr)
    case DeqData => l.(pc := DeqSwap, value := At(q.heap, l.next.ptr).data)
    case DeqSwap => l.(pc := if q.deq == l.deq then DeqFe else DeqPtr)
    case DeqFe => l.(pc := Release, elem := At(q.heap, l.deq.ptr).fe)
    case _ => l
  }

  // ----------------------------------------------------------- a step, with its history

  /** The link swap of a call at `EnqLink` is about to succeed. */
  ghost predicate LinkFires(q: Queue, l: Local) {
    && l.pc == EnqLink
    && At(q.heap, l.enq.ptr).next == Pair(NULL, l.next.ctr)
  }

  /** It is about to succeed on a node that is not in the chain. */
  ghost predicate StrayLink(q: Queue, l: Local, place: map<nat, Place>) {
    LinkFires(q, l) && !IsLive(place, l.enq.ptr)
  }

  predicate IsLive(place: map<nat, Place>, p: nat) {
    p in place && place[p].Live?
  }

  /** Where the elements are after the step. */
  function StepPlace(q: Queue, l: Local, place: map<nat, Place>, t: Tid): map<nat, Place> {
    if l.pc == EnqLink && At(q.heap, l.enq.ptr).next == Pair(NULL, l.next.ctr) && IsLive(place, l.enq.ptr)
    then place[l.elem := Live(|q.nodes|)]
    else if l.pc == EnqLink && At(q.heap, l.enq.ptr).next == Pair(NULL, l.next.ctr)
    then place[l.elem := Behind(l.enq.ptr)]
    else if Extends(q, l) then place[Target(l) := Live(|q.nodes|)]
    else if l.pc == DeqSwap && q.deq == l.deq then place[l.deq.ptr := Held(t)]
    else place
  }

  /** The node that a helping or finishing swing installs. */
  function Target(l: Local): nat {
    if l.pc == EnqSwing then l.elem else l.next.ptr
  }

  /** The swing is about to succeed and to reach a node that the history does not have in
      the chain yet. */
  predicate Extends(q: Queue, l: Local) {
    l.pc in {EnqHelp, EnqSwing, DeqHelp} && q.enq == l.enq && q.last + 1 >= |q.nodes|
  }

  function Step(q: Queue, l: Local, place: map<nat, Place>): Queue {
    StepShared(q, l, IsLive(place, l.enq.ptr))
  }

  // ------------------------------------------------------------ shared invariant

  /** Heap addresses are those of the created elements. */
  ghost predicate Allocated(heap: map<nat, Node>, nodes: seq<nat>) {
    && NULL !in heap
    && (forall i | 0 <= i < |nodes| :: nodes[i] in heap)
  }

  ghost predicate Ends(q: Queue) {
    && q.first <= q.last < |q.nodes|
    && |q.values| == |q.draws| == |q.tags| == |q.nodes|
    && q.enq == Pair(q.nodes[q.last], q.enqBase + STRIDE * q.last)
    && q.deq == Pair(q.nodes[q.first], q.deqBase + STRIDE * q.first)
  }

  ghost predicate NextIs(heap: map<nat, Node>, nodes: seq<nat>, i: nat) {
    i + 1 < |nodes| && At(heap, nodes[i]).next.ptr == nodes[i + 1]
  }

  /** From the dummy on, every node's next is the one after it. */
  ghost predicate Chained(heap: map<nat, Node>, nodes: seq<nat>, first: nat) {
    forall i | first <= i < |nodes| - 1 :: NextIs(heap, nodes, i)
  }

  /** Live nodes carry the value they were enqueued with and know their freelist element. */
  ghost predicate Loaded(heap: map<nat, Node>, nodes: seq<nat>, values: seq<Value>, first: nat) {
    && |values| == |nodes|
    && (forall i | first < i < |nodes| :: At(heap, nodes[i]).data == values[i])
    && (forall i | first <= i < |nodes| :: At(heap, nodes[i]).fe == nodes[i])
  }

  /** The live nodes, and no others, are placed in the chain, each at its own index. */
  ghost predicate Placed(place: map<nat, Place>, nodes: seq<nat>, first: nat) {
    && (forall i | first <= i < |nodes| :: nodes[i] in place && place[nodes[i]] == Live(i))
    && (forall e | e in place && place[e].Live? ::
          first <= place[e].at < |nodes| && nodes[place[e].at] == e)
  }

  /** A node on the freelist still has the next pointer it left the chain with. */
  ghost predicate Retired(heap: map<nat, Node>, nodes: seq<nat>, place: map<nat, Place>) {
    forall i | 0 <= i < |nodes| && nodes[i] in place && place[nodes[i]].Free? ::
      At(heap, nodes[i]).next.ptr != NULL
  }

  /** A node that was linked to one outside the chain is what that one points at. */
  ghost predicate Hung(heap: map<nat, Node>, place: map<nat, Place>, n: nat) {
    forall c | c in place && place[c].Behind? ::
      var p := place[c].parent;
      && c in heap && p in heap && p in place && heap[p].next.ptr == c && heap[c].fe == c
      && (place[p].Behind? || place[p].Held? || (n > 0 && place[p] == Live(n - 1)))
  }

  /** The next pointer of `p` is NULL or points at the node that hangs behind `p`. */
  ghost predicate Bears(heap: map<nat, Node>, place: map<nat, Place>, p: nat) {
    && p in heap
    && (heap[p].next.ptr == NULL || (heap[p].next.ptr in place && place[heap[p].next.ptr] == Behind(p)))
  }

  ghost predicate Ended(heap: map<nat, Node>, place: map<nat, Place>, nodes: seq<nat>) {
    && nodes != [] && Bears(heap, place, nodes[|nodes| - 1])
    && forall c | c in place && place[c].Behind? :: Bears(heap, place, c)
  }

  /** Along the pointers of hanging nodes, the time of leaving the chain decreases. */
  ghost predicate Aged(place: map<nat, Place>, nodes: seq<nat>, first: nat, left: map<nat, nat>) {
    && (forall i | 0 <= i < first && i < |nodes| :: Stamp(left, nodes[i]) > i)
    && (forall e | e in left :: left[e] <= first)
    && (forall c | c in place && place[c].Behind? && place[c].parent in place && !place[place[c].parent].Live? ::
          Stamp(left, c) < Stamp(left, place[c].parent))
  }

  /** Each node after the first dummy carries the value of a link swap of its own. */
  ghost predicate Tagged(values: seq<Value>, tags: seq<nat>, linked: seq<Value>) {
    && |tags| == |values|
    && (forall i | 1 <= i < |tags| :: tags[i] < |linked| && linked[tags[i]] == values[i])
    && (forall i, j | 1 <= i < j < |tags| :: tags[i] != tags[j])
  }

  /** So does each hanging node. */
  ghost predicate TaggedBehind(heap: map<nat, Node>, place: map<nat, Place>, tags: seq<nat>, tag: map<nat, nat>,
                               linked: seq<Value>) {
    && (forall c | c in place && place[c].Behind? ::
          && c in tag && tag[c] < |linked| && At(heap, c).data == linked[tag[c]]
          && forall i | 1 <= i < |tags| :: tags[i] != tag[c])
    && (forall c, d | c in place && d in place && place[c].Behind? && place[d].Behind? && c != d ::
          c in tag && d in tag && tag[c] != tag[d])
  }

  ghost predicate TagUsed(place: map<nat, Place>, tags: seq<nat>, tag: map<nat, nat>, k: nat) {
    || (exists i :: 1 <= i < |tags| && tags[i] == k)
    || (exists c :: c in place && place[c].Behind? && c in tag && tag[c] == k)
  }

  /** Every link swap is accounted for. */
  ghost predicate TagsUsed(place: map<nat, Place>, tags: seq<nat>, tag: map<nat, nat>, n: nat) {
    forall k: nat | k < n :: TagUsed(place, tags, tag, k)
  }

  ghost predicate Valid(q: Queue, place: map<nat, Place>) {
    && Ends(q)
    && place.Keys == q.heap.Keys
    && Allocated(q.heap, q.nodes)
    && Chained(q.heap, q.nodes, q.first)
    && Loaded(q.heap, q.nodes, q.values, q.first)
    && Placed(place, q.nodes, q.first)
    && Retired(q.heap, q.nodes, place)
    && Hung(q.heap, place, |q.nodes|)
    && Ended(q.heap, place, q.nodes)
    && Aged(place, q.nodes, q.first, q.left)
    && Tagged(q.values, q.tags, q.linked)
    && TaggedBehind(q.heap, place, q.tags, q.tag, q.linked)
    && TagsUsed(place, q.tags, q.tag, |q.linked|)
    && q.out == q.values[1..q.first + 1]
  }

  // ------------------------------------------------- what the locals of a call know

  ghost predicate Snapshot(q: Queue, l: Local) {
    && l.enq.ptr in q.heap
    && l.enqAt <= q.last
    && l.enq.ctr == q.enqBase + STRIDE * l.enqAt
  }

  ghost predicate HeadSnapshot(q: Queue, l: Local) {
    && l.deq.ptr in q.heap
    && l.deqAt <= q.first
    && l.deq.ctr == q.deqBase + STRIDE * l.deqAt
  }

  ghost predicate Same(nodes: seq<nat>, i: nat, p: nat) {
    i < |nodes| && nodes[i] == p
  }

  ghost predicate Ok(values: seq<Value>, i: nat, v: Value) {
    i < |values| && values[i] == v
  }

  /** If the head did not move and `enq` was read elsewhere, there is a node after the head. */
  ghost predicate BeyondHead(q: Queue, l: Local) {
    q.first == l.deqAt && Same(q.nodes, l.deqAt, l.deq.ptr) && l.enq.ptr != l.deq.ptr ==> l.deqAt < q.last
  }

  ghost predicate Ordered(q: Queue, l: Local) {
    l.deqAt <= l.enqAt <= q.last && l.enq.ctr == q.enqBase + STRIDE * l.enqAt
  }

  /** `p` is the node after node number `i`, in the chain or hanging behind it. */
  ghost predicate Follows(q: Queue, i: nat, p: nat) {
    || (i + 1 < |q.nodes| && q.nodes[i + 1] == p)
    || (i + 1 == |q.nodes| && p != NULL && q.nodes[i] in q.heap && q.heap[q.nodes[i]].next.ptr == p)
  }

  ghost predicate NextKnown(q: Queue, l: Local, i: nat) {
    l.next.ptr != NULL ==> Follows(q, i, l.next.ptr)
  }

  /** The next pointer was read; it is right unless the recheck fails. */
  ghost predicate TailRead(q: Queue, l: Local) {
    Snapshot(q, l) && (q.last == l.enqAt && Same(q.nodes, l.enqAt, l.enq.ptr) ==> NextKnown(q, l, l.enqAt))
  }

  /** The pointer word passed its recheck. */
  ghost predicate TailChecked(q: Queue, l: Local) {
    Snapshot(q, l) && (q.last == l.enqAt ==> Same(q.nodes, l.enqAt, l.enq.ptr) && NextKnown(q, l, l.enqAt))
  }

  /** Facts about shared memory that remain true however other threads run. */
  ghost predicate EnqKnows(q: Queue, l: Local) {
    match l.pc
    case EnqCtr => l.enq.ptr in q.heap
    case EnqNextPtr => Snapshot(q, l)
    case EnqNextCtr => TailRead(q, l)
    case EnqCheckPtr => TailRead(q, l)
    case EnqCheckCtr => TailChecked(q, l)
    case EnqLink => Snapshot(q, l) && l.next.ptr == NULL && Same(q.nodes, l.enqAt, l.enq.ptr)
    case EnqHelp => TailChecked(q, l) && l.next.ptr != NULL && Same(q.nodes, l.enqAt, l.enq.ptr)
    case EnqSwing =>
      && Snapshot(q, l) && Same(q.nodes, l.enqAt, l.enq.ptr)
      && (q.last == l.enqAt ==> Same(q.nodes, l.enqAt + 1, l.elem))
    case _ => true
  }

  /** If `enq` was read elsewhere than at the head, the next pointer is the next node. */
  ghost predicate NextBeyond(q: Queue, l: Local) {
    l.enq.ptr != l.deq.ptr ==> l.deqAt < q.last && l.deqAt + 1 < |q.nodes| && l.next.ptr == q.nodes[l.deqAt + 1]
  }

  ghost predicate HeadKnown(q: Queue, l: Local) {
    NextKnown(q, l, l.deqAt) && NextBeyond(q, l) && (l.next.ptr == NULL ==> l.sawEmpty)
  }

  ghost predicate HeadRead(q: Queue, l: Local) {
    && HeadSnapshot(q, l) && Ordered(q, l)
    && (q.first == l.deqAt && Same(q.nodes, l.deqAt, l.deq.ptr) ==> HeadKnown(q, l))
  }

  ghost predicate HeadChecked(q: Queue, l: Local) {
    && HeadSnapshot(q, l) && Ordered(q, l)
    && (q.first == l.deqAt ==> Same(q.nodes, l.deqAt, l.deq.ptr) && HeadKnown(q, l))
  }

  /** In the attempt-dequeue state. */
  ghost predicate Attempting(q: Queue, l: Local) {
    HeadSnapshot(q, l) && Same(q.nodes, l.deqAt, l.deq.ptr) && NextBeyond(q, l) && l.enq.ptr != l.deq.ptr
  }

  ghost predicate DeqKnows(q: Queue, l: Local) {
    match l.pc
    case DeqCtr => l.deq.ptr in q.heap
    case DeqEnqPtr => HeadSnapshot(q, l)
    case DeqEnqCtr => HeadSnapshot(q, l) && BeyondHead(q, l)
    case DeqNextPtr => HeadSnapshot(q, l) && BeyondHead(q, l) && Ordered(q, l)
    case DeqNextCtr => HeadRead(q, l)
    case DeqCheckPtr => HeadRead(q, l)
    case DeqCheckCtr => HeadChecked(q, l)
    case DeqHelp =>
      && HeadChecked(q, l) && Same(q.nodes, l.deqAt, l.deq.ptr) && l.next.ptr != NULL && l.enq.ptr == l.deq.ptr
      && (Same(q.nodes, l.enqAt, l.deq.ptr) ==> l.enqAt == l.deqAt)
    case DeqData => Attempting(q, l)
    case DeqSwap => Attempting(q, l) && (q.first == l.deqAt ==> Ok(q.values, l.deqAt + 1, l.value))
    case Acquire => l.op == Enqueue
    case Create => l.op == GuaranteedEnqueue
    case Return => l.op == Dequeue && l.rv == 0 ==> l.sawEmpty
    case _ => true
  }

  ghost predicate Knows(q: Queue, l: Local) {
    EnqKnows(q, l) && DeqKnows(q, l)
  }

  /** History only grows. */
  ghost predicate Evolves(q: Queue, q': Queue) {
    && q.heap.Keys <= q'.heap.Keys
    && q.nodes <= q'.nodes && q.values <= q'.values && q.draws <= q'.draws
    && q.first <= q'.first && q.last <= q'.last
    && q.enqBase == q'.enqBase && q.deqBase == q'.deqBase
    && q.commits <= q'.commits && q.aba <= q'.aba
  }

  /** History only grows, and what follows a node does not change until the node leaves. */
  ghost predicate Grows(q: Queue, q': Queue) {
    && Evolves(q, q')
    && (forall i, p | q'.first <= i < |q.nodes| && Follows(q, i, p) :: Follows(q', i, p))
  }

  lemma EnqKnowledgeSurvives(q: Queue, q': Queue, l: Local)
    requires q.first <= q.last < |q.nodes| && q'.first <= q'.last && Grows(q, q') && EnqKnows(q, l)
    ensures EnqKnows(q', l)
  {
  }

  lemma DeqKnowledgeSurvives(q: Queue, q': Queue, l: Local)
    requires q.first <= q.last < |q.nodes| && q'.first <= q'.last && Grows(q, q') && DeqKnows(q, l)
    ensures DeqKnows(q', l)
  {
  }

  // --------------------------------------------------------- what a call owns

  /** At these points the call owns an element: only it may write the element's fields. */
  predicate Owning(pc: Pc) {
    match pc
    case InitDraw | InitNextPtr | InitNextDraw | InitNextCtr | InitFe | InitData => true
    case EnqPtr | EnqCtr | EnqNextPtr | EnqNextCtr | EnqCheckPtr | EnqCheckCtr | EnqLink | EnqHelp => true
    case DeqFe => true
    case _ => false
  }

  function Owned(l: Local): nat {
    if l.pc == DeqFe then l.deq.ptr else l.elem
  }

  /** Nothing hangs behind `e`, and no link swap can hit it. */
  ghost predicate Clear(q: Queue, place: map<nat, Place>, e: nat) {
    && (forall c | c in place :: place[c] != Behind(e))
    && (e in q.nodes ==> At(q.heap, e).next.ptr != NULL)
  }

  /** The element left the chain no later than the head was at node `i`. */
  ghost predicate Older(q: Queue, e: nat, i: nat) {
    Stamp(q.left, e) <= i
  }

  ghost predicate Owns(q: Queue, place: map<nat, Place>, l: Local, t: Tid) {
    var e := Owned(l);
    Owning(l.pc) ==>
      && e in q.heap && e in place && place[e] == Held(t)
      && match l.pc
         case InitDraw | InitNextPtr => Clear(q, place, e)
         case InitNextDraw | InitNextCtr | InitFe => Bears(q.heap, place, e)
         case InitData => Bears(q.heap, place, e) && q.heap[e].fe == e
         case DeqFe => Clear(q, place, e) && q.heap[e].fe == e
         case EnqPtr | EnqCtr => Bears(q.heap, place, e) && q.heap[e].fe == e && q.heap[e].data == l.value
         case _ => Bears(q.heap, place, e) && q.heap[e].fe == e && q.heap[e].data == l.value && Older(q, e, l.enqAt)
  }

  /** What thread `u` leaves alone of an element held by another. */
  ghost predicate Untouched(q: Queue, q': Queue, place: map<nat, Place>, place': map<nat, Place>, e: nat) {
    && e in place && e in place' && place'[e] == place[e]
    && e in q.heap && e in q'.heap && q'.heap[e].fe == q.heap[e].fe && q'.heap[e].data == q.heap[e].data
    && Stamp(q'.left, e) == Stamp(q.left, e)
    && (Clear(q, place, e) ==> Clear(q', place', e))
    && (Bears(q.heap, place, e) ==> Bears(q'.heap, place', e))
  }

  ghost predicate Respects(q: Queue, q': Queue, place: map<nat, Place>, place': map<nat, Place>, u: Tid) {
    forall e | e in place && place[e].Held? && place[e].owner != u :: Untouched(q, q', place, place', e)
  }

  lemma OwnershipSurvives(q: Queue, q': Queue, place: map<nat, Place>, place': map<nat, Place>, u: Tid, l: Local,
                          t: Tid)
    requires t != u && Respects(q, q', place, place', u) && Owns(q, place, l, t)
    ensures Owns(q', place', l, t)
  {
    hide Clear, Bears;
    if Owning(l.pc) {
      assert Untouched(q, q', place, place', Owned(l));
    }
  }
}
